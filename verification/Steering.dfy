/** The pure side of the operator: what a spec asks for, what each step touches, and where a reconciliation leads. */
module Steering {
  import opened Int64
  import opened Cluster
  import opened MemoryClient

  // ---------------------------------------------------------------- specs

  lemma {:induction false} PortFound(processes: seq<Process>, p: Process)
    requires Distinct(processes) && p in processes
    ensures PortIn(processes, p.name) == p.port
  {
    if processes[0] != p {
      assert processes[0].name != p.name by {
        var i :| 0 <= i < |processes| && processes[i] == p;
      }
      PortFound(processes[1..], p);
    }
  }

  function NameOf(app: string, spec: Spec, component: string): Name {
    Name(app, component, spec.release)
  }

  function LabelsOf(application: Id, spec: Spec): Labels {
    Labels(application, spec.release)
  }

  function ProcessKey(kind: Kind, app: string, spec: Spec, p: Process): Key {
    Key(kind, NameOf(app, spec, p.name))
  }

  predicate HasDeployment(app: string, application: Id, spec: Spec, objects: map<Key, Object>, p: Process) {
    var k := ProcessKey(DeploymentKind, app, spec, p);
    k in objects && objects[k].Deployment? && objects[k].labels == LabelsOf(application, spec) && objects[k].template == spec
  }

  predicate HasService(app: string, application: Id, spec: Spec, objects: map<Key, Object>, p: Process) {
    var k := ProcessKey(ServiceKind, app, spec, p);
    p.port > 0 ==> k in objects && objects[k] == Service(LabelsOf(application, spec), p.port, p.name)
  }

  /** Where no autoscaler is wanted there is none, or its deletion was requested. */
  predicate HasHpa(app: string, application: Id, spec: Spec, s: State, p: Process) {
    var k := ProcessKey(HpaKind, app, spec, p);
    if p.maxReplicas > p.minReplicas then k in s.objects && s.objects[k] == Hpa(LabelsOf(application, spec), p.minReplicas, p.maxReplicas)
    else k !in s.objects || OnObject(k) in s.pending
  }

  /** The objects one process asks for. */
  predicate Desired(app: string, application: Id, spec: Spec, s: State, p: Process) {
    HasDeployment(app, application, spec, s.objects, p) && HasService(app, application, spec, s.objects, p) && HasHpa(app, application, spec, s, p)
  }

  // ---------------------------------------------------------------- what a piece of a reconciliation touches

  /** Nothing but the objects under these keys, reports, and further requests for deletion. */
  ghost predicate Touches(a: State, b: State, keys: set<Key>) {
    && b == a.(objects := b.objects, pending := b.pending) && a.pending <= b.pending
    && forall k | k !in keys :: (k in a.objects <==> k in b.objects) && (k in a.objects ==> SameButReport(a.objects[k], b.objects[k]))
  }

  lemma DriftTouches(a: State, b: State)
    requires Drift(a, b) && a.pending == {}
    ensures Touches(a, b, {})
  {}

  /** A call that goes through touches nothing by itself, in calm weather or while deletions are immediate. */
  lemma CallTouches(a: State, b: State, clear: bool, reports: Reports)
    requires Drift(a, b) && (if clear then b == a.(objects := Calmed(a.objects, reports)) else a.pending == {})
    ensures Touches(a, b, {})
  {
    if clear {
      hide Drift;
    } else {
      DriftTouches(a, b);
    }
  }

  lemma PutTouches(a: State, mid: State, k: Key, v: Object)
    requires Touches(a, mid, {})
    ensures Touches(a, mid.(objects := mid.objects[k := v]), {k})
  {}

  lemma DropTouches(a: State, mid: State, k: Key, defer: bool)
    requires Touches(a, mid, {})
    ensures Touches(a, Deletion(mid, k, true, defer), {k})
  {}

  lemma TouchesBoth(a: State, b: State, c: State, x: set<Key>, y: set<Key>)
    requires Touches(a, b, x) && Touches(b, c, y)
    ensures Touches(a, c, x + y)
  {
    forall k | k !in x + y
      ensures (k in a.objects <==> k in c.objects) && (k in a.objects ==> SameButReport(a.objects[k], c.objects[k]))
    {
      assert k !in x && k !in y;
    }
  }

  lemma TouchesNeither(a: State, b: State, c: State)
    requires Touches(a, b, {}) && Touches(b, c, {})
    ensures Touches(a, c, {})
  {
    var none: set<Key> := {};
    TouchesBoth(a, b, c, none, none);
    assert none + none == none;
  }

  ghost predicate IsCalm(objects: map<Key, Object>, reports: Reports) {
    Calmed(objects, reports) == objects
  }

  lemma CalmTwice(objects: map<Key, Object>, reports: Reports)
    ensures IsCalm(Calmed(objects, reports), reports)
  {}

  ghost function WithoutRoute(s: State, defer: bool, reports: Reports): State {
    if defer then s.(objects := Calmed(s.objects, reports), pending := s.pending + {OnRoute})
    else s.(objects := Calmed(s.objects, reports), route := None)
  }

  /** In calm weather: what one step of a suspension does, but for the status. */
  ghost function Withdrawn(application: Id, s: State, defer: bool, reports: Reports): State {
    if s.route.Some? then WithoutRoute(s, defer, reports) else Requested(s, defer, reports, Doomed(application, s, false, AllKinds()))
  }

  /** A suspension forgets nothing about releases and migrations, except which candidate was being rolled out. */
  predicate Spared(before: Status, after: Status) {
    && after.active == before.active && after.migrated == before.migrated
    && ((after.candidate == before.candidate && after.fingerprint == before.fingerprint) || (after.candidate.None? && after.fingerprint.None?))
  }

  ghost function WithoutPolicy(s: State, defer: bool, reports: Reports): State {
    if s.policy.None? then s.(objects := Calmed(s.objects, reports))
    else if defer then s.(objects := Calmed(s.objects, reports), pending := s.pending + {OnPolicy})
    else s.(objects := Calmed(s.objects, reports), policy := None)
  }

  lemma GoneRecedes(ctx: Context, a: State, b: State)
    requires Gone(ctx, a) && Recedes(a, b)
    ensures Gone(ctx, b)
  {
    forall k | k in b.objects ensures !OfApp(ctx, b.objects[k]) {
      assert SameButReport(a.objects[k], b.objects[k]);
    }
  }

  /** Workloads requested, none waiting, and the policy on its way or gone. */
  lemma PolicyProceeds(application: Id, s0: State, s1: State, defer: bool, reports: Reports, b: State)
    requires s1 == s0.(objects := Calmed(s0.objects, reports)) && !(defer && Doomed(application, s1, false, AllKinds()) != {})
    requires b == WithoutPolicy(Requested(s1, defer, reports, Doomed(application, s1, false, AllKinds())), defer, reports).(status := b.status)
    requires !(defer && s0.policy.Some?) ==> IsFinal(b.status.phase)
    ensures Proceeds(application, s0, b)
  {
    var d := Doomed(application, s1, false, AllKinds());
    RequestedLeaves(application, s1, defer, reports, false);
    hide Doomed, Calmed;
    CalmTwice(s0.objects, reports);
    CalmSize(s0.objects, reports);
    if defer {
      assert d == {} && Marks(d) == {};
      SameObjectsProceed(application, s0, b);
    } else {
      assert b.objects == s1.objects - d;
      FewerProceed(application, s0, s1, d, b);
    }
  }

  lemma SameObjectsProceed(application: Id, a: State, b: State)
    requires b.app == a.app && b.objects.Keys == a.objects.Keys && |b.objects| == |a.objects| && b.route == a.route && b.policy == a.policy
    requires a.pending <= b.pending && (IsFinal(b.status.phase) || (a.policy.Some? && OnPolicy in b.pending))
    ensures Proceeds(application, a, b)
  {
    assert !IsFinal(b.status.phase) ==> Waiting(b, OnPolicy);
  }

  lemma FewerProceed(application: Id, a: State, mid: State, d: set<Key>, b: State)
    requires b.app == a.app && mid.objects.Keys == a.objects.Keys && |mid.objects| == |a.objects| && b.objects == mid.objects - d
    requires b.route == a.route && (b.policy.None? || b.policy == a.policy) && b.pending == a.pending && IsFinal(b.status.phase)
    ensures Proceeds(application, a, b)
  {
    assert b.objects.Keys == mid.objects.Keys - d;
    if b.objects.Keys != mid.objects.Keys {
      SubsetSize(b.objects.Keys, mid.objects.Keys);
    } else {
      assert |b.objects| == |b.objects.Keys|;
    }
  }

  lemma {:induction false} SubsetSize<T>(a: set<T>, b: set<T>)
    requires a < b
    ensures |a| < |b|
  {
    var x :| x in b && x !in a;
    assert a <= b - {x};
    if a != b - {x} {
      SubsetSize(a, b - {x});
    }
  }

  /** How much is still there. */
  ghost function Left(s: State): nat {
    |s.objects| + (if s.route.Some? then 1 else 0) + (if s.policy.Some? then 1 else 0)
  }

  predicate Waiting(s: State, t: Target) {
    t in s.pending && match t
    case OnObject(k) => k in s.objects
    case OnRoute => s.route.Some?
    case OnPolicy => s.policy.Some?
  }

  /** The phase a tear-down ends in. */
  function Goal(l: Lifecycle): Phase {
    if l.Deleted? then Phase.Deleted else if Deleting(l) then Phase.Retaining else Phase.Suspended
  }

  /** A final phase is the right one, and true. */
  ghost predicate Concludes(ctx: Context, s: State) {
    IsFinal(s.status.phase) ==> s.status.phase == Goal(s.app.lifecycle) && Announces(ctx, s, s.status.phase)
  }

  lemma StatusAside(ctx: Context, s: State, status: Status)
    ensures Announces(ctx, s.(status := status), status.phase) <==> Announces(ctx, s, status.phase)
  {}

  predicate IsFinal(phase: Phase) {
    phase.Suspended? || phase.Retaining? || phase.Deleted?
  }

  /** One calm step of a tear-down: it is over, or less is left, or something left is marked for deletion. */
  ghost predicate Proceeds(application: Id, a: State, b: State) {
    && b.app == a.app && Left(b) <= Left(a) && (forall t | Waiting(a, t) :: Waiting(b, t) || Left(b) < Left(a))
    && (IsFinal(b.status.phase) || Left(b) < Left(a) || exists t :: Waiting(b, t))
  }

  lemma CalmSize(objects: map<Key, Object>, reports: Reports)
    ensures |Calmed(objects, reports)| == |objects| && Calmed(objects, reports).Keys == objects.Keys
  {
    assert Calmed(objects, reports).Keys == objects.Keys;
  }

  lemma RouteProceeds(application: Id, s: State, defer: bool, reports: Reports, status: Status)
    requires s.route.Some?
    ensures var b := WithoutRoute(s, defer, reports);
            Proceeds(application, s, b.(objects := Calmed(b.objects, reports), status := status))
  {
    CalmTwice(s.objects, reports);
    CalmSize(s.objects, reports);
    var b := WithoutRoute(s, defer, reports).(status := status);
    assert defer ==> Waiting(b, OnRoute);
  }

  lemma NotFinal(ctx: Context, s: State, phase: Phase)
    requires !IsFinal(phase)
    ensures Announces(ctx, s, phase)
  {}

  lemma GoneAnnounces(ctx: Context, s: State, phase: Phase)
    requires Gone(ctx, s) && phase.Suspended?
    ensures Announces(ctx, s, phase)
  {}

  lemma WorkloadsProceed(application: Id, s0: State, s1: State, defer: bool, reports: Reports, status: Status, remaining: bool)
    requires s1 == s0.(objects := Calmed(s0.objects, reports))
    requires remaining <==> defer && Doomed(application, s1, false, AllKinds()) != {}
    requires !remaining ==> IsFinal(status.phase)
    ensures var b := Requested(s1, defer, reports, Doomed(application, s1, false, AllKinds()));
            Proceeds(application, s0, b.(status := status))
  {
    var d := Doomed(application, s1, false, AllKinds());
    RequestedLeaves(application, s1, defer, reports, false);
    hide Doomed, Calmed;
    CalmTwice(s0.objects, reports);
    CalmSize(s0.objects, reports);
    var b := Requested(s1, defer, reports, d).(status := status);
    if defer {
      DoomedPresent(application, s1);
      MarkedProceed(application, s0, s1, d, b);
    } else {
      FewerProceed(application, s0, s1, d, b);
    }
  }

  lemma DoomedPresent(application: Id, s: State)
    ensures Doomed(application, s, false, AllKinds()) <= s.objects.Keys
  {}

  lemma MarkedProceed(application: Id, a: State, mid: State, d: set<Key>, b: State)
    requires b.app == a.app && mid.objects.Keys == a.objects.Keys && |mid.objects| == |a.objects| && b.objects == mid.objects
    requires b.route == a.route && b.policy == a.policy && b.pending == a.pending + Marks(d) && d <= mid.objects.Keys
    requires d == {} ==> IsFinal(b.status.phase)
    ensures Proceeds(application, a, b)
  {
    if k :| k in d {
      assert Waiting(b, OnObject(k));
    }
  }

  lemma PutsNothing(ctx: Context, s: State)
    requires s.route.None? && ctx.Kept(s.app) && TearingDown(s.app.lifecycle)
    ensures Anchored(ctx, s, false)
  {}

  lemma EveryKind(kind: Kind)
    ensures kind in AllKinds()
  {
    assert KINDS[0] == DeploymentKind && KINDS[1] == ServiceKind && KINDS[2] == HpaKind && KINDS[3] == JobKind;
    assert KINDS[..|KINDS|] == KINDS;
  }

  lemma NothingLeft(ctx: Context, s: State)
    requires s.route.None? && Doomed(ctx.application, s, false, AllKinds()) == {}
    ensures Gone(ctx, s)
  {
    forall k | k in s.objects ensures !OfApp(ctx, s.objects[k]) {
      EveryKind(k.kind);
      assert k !in Doomed(ctx.application, s, false, AllKinds());
    }
  }

  /** The same release with another spec. */
  predicate Conflicting(spec: Spec, status: Status) {
    status.candidate == Some(spec.release) && status.fingerprint.Some? && status.fingerprint.value != spec
  }

  function Tracked(spec: Spec, status: Status, now: int): Status {
    if status.candidate != Some(spec.release) then
      status.(candidate := Some(spec.release), fingerprint := Some(spec), started := Some(now))
    else
      status.(fingerprint := if status.fingerprint.None? then Some(spec) else status.fingerprint,
              started := if status.started.None? then Some(now) else status.started)
  }

  /** No conflict, and the migration is done or its job succeeds. */
  ghost predicate Unhindered(app: string, spec: Spec, status: Status, reports: Reports) {
    !Conflicting(spec, status) && (MigrationDone(spec, status) || reports.ends(NameOf(app, spec, "migration")).Succeeded?)
  }

  predicate MigrationDone(spec: Spec, status: Status) {
    spec.migration ==> status.migrated == Some(spec.release)
  }

  function MigrationOf(app: string, spec: Spec): Key {
    Key(JobKind, NameOf(app, spec, "migration"))
  }

  /** Moment n submits the job under this key, anew if there was none. */
  ghost predicate Submits(trace: seq<Moment>, n: nat, k: Key, anew: bool) {
    && n < |trace| && trace[n].action == Upserts(k)
    && (anew ==> k in trace[n].state.objects && trace[n].state.objects[k].Job? && trace[n].state.objects[k].outcome.Pending?)
  }

  lemma SubmitsStill(trace: seq<Moment>, more: seq<Moment>, n: nat, k: Key, anew: bool)
    requires Submits(trace, n, k, anew) && trace <= more
    ensures Submits(more, n, k, anew) && Submits(more, n, k, false) && n < |more|
  {}

  lemma SubmitsFresh(a: State, mid: State, trace: seq<Moment>, n: nat, k: Key, v: Object)
    requires Drift(a, mid) && n < |trace| && trace[n].action == Upserts(k) && v.Job? && v.outcome.Pending?
    requires trace[n].state == mid.(objects := mid.objects[k := Merged(mid.objects, k, v)])
    ensures Submits(trace, n, k, k !in a.objects)
  {}

  /** The status once the migration, if there is one, has succeeded. */
  function PastMigration(spec: Spec, status: Status): Status {
    if spec.migration then status.(migrated := Some(spec.release)) else status
  }

  /** The route of a promoted release. */
  function RouteOf(app: string, spec: Spec, hostname: string): Route {
    Route(Some(NameOf(app, spec, spec.route)), PortOf(spec, spec.route), true, hostname)
  }

  /** The status of a release that serves all its traffic. */
  ghost predicate LiveStatus(app: string, spec: Spec, reports: Reports, generation: int, status: Status) {
    && status.generation == generation && status.phase.Ready? && status.active == Some(spec.release)
    && status.backend == Some(NameOf(app, spec, spec.route)) && status.port == PortOf(spec, spec.route)
    && status.candidate == Some(spec.release) && status.fingerprint == Some(spec) && status.started.Some?
    && MigrationDone(spec, status)
    && status.url == Some("https://" + spec.hostname) && status.ready == Total(app, spec, reports, |spec.processes|)
    && status.condition.Some? && status.condition.value == Condition(true, RolloutComplete, "", generation, status.condition.value.since)
  }

  /** Everything the stored spec asks for is in place and serving. */
  ghost predicate Live(app: string, application: Id, reports: Reports, s: State) {
    var spec := s.app.spec;
    && s.policy == Some(spec.egress) && spec.release in s.promoted && IsCalm(s.objects, reports)
    && AllDesired(app, application, spec, s, |spec.processes|)
    && s.route == Some(RouteOf(app, spec, spec.hostname))
    && LiveStatus(app, spec, reports, s.app.generation, s.status)
  }

  /** Whatever has the name of another release is still there, and nothing new has. */
  ghost predicate Beside(a: State, b: State) {
    forall k: Key | k.name.release != a.app.spec.release ::
      (k in a.objects <==> k in b.objects) && (k in a.objects ==> SameButReport(a.objects[k], b.objects[k]))
  }

  lemma BesideTransitive(a: State, b: State, c: State)
    requires Beside(a, b) && Beside(b, c) && a.app == b.app
    ensures Beside(a, c)
  {}

  /** In calm weather: what a rollout and, before it, a migration may have changed. */
  ghost predicate RolledFrom(a: State, b: State) {
    b == a.(objects := b.objects, pending := b.pending, migrated := b.migrated) && a.pending <= b.pending && Beside(a, b)
  }

  lemma RolledSelf(a: State)
    ensures RolledFrom(a, a)
  {}

  lemma RolledTransitive(a: State, b: State, c: State)
    requires RolledFrom(a, b) && RolledFrom(b, c)
    ensures RolledFrom(a, c)
  {
    BesideTransitive(a, b, c);
    hide Beside;
  }

  lemma RolledShape(a: State, b: State)
    requires RolledFrom(a, b)
    ensures b == a.(objects := b.objects, pending := b.pending, migrated := b.migrated) && a.pending <= b.pending
  {}

  lemma TouchesRolled(a: State, b: State, keys: set<Key>)
    requires Touches(a, b, keys) && forall k | k in keys :: k.name.release == a.app.spec.release
    ensures RolledFrom(a, b)
  {}

  lemma CarrierStays(a: State, b: State, r: Route)
    requires Touches(a, b, {})
    ensures Carrier(b.(route := Some(r))) == Carrier(a.(route := Some(r)))
  {
    if r.backend.Some? && Key(ServiceKind, r.backend.value) in a.objects {
      assert SameButReport(a.objects[Key(ServiceKind, r.backend.value)], b.objects[Key(ServiceKind, r.backend.value)]);
    }
  }

  /** In calm weather: what a reconciliation of ready processes ends in, from the state it rolled out. */
  ghost function Finished(app: string, application: Id, defer: bool, reports: Reports, rolled: State,
                          route: Route, status: Status, serving: bool, now: int): State
  {
    var total := Total(app, rolled.app.spec, reports, |rolled.app.spec.processes|);
    var p := Promoted(app, rolled, reports, route.hostname, status, total, now);
    if serving then Cleaned(application, p, defer, reports) else p
  }

  lemma AllDesiredCalmed(app: string, application: Id, spec: Spec, s: State, reports: Reports)
    requires AllDesired(app, application, spec, s, |spec.processes|)
    ensures AllDesired(app, application, spec, s.(objects := Calmed(s.objects, reports)), |spec.processes|)
  {
    forall i | 0 <= i < |spec.processes| ensures Desired(app, application, spec, s.(objects := Calmed(s.objects, reports)), spec.processes[i]) {
      CalmKeeps(app, application, spec, s, reports, spec.processes[i]);
    }
  }

  /** Cleaning up takes nothing that the current spec asks for. */
  lemma CleanedLive(app: string, application: Id, defer: bool, reports: Reports, s: State)
    requires Live(app, application, reports, s)
    ensures Live(app, application, reports, Cleaned(application, s, defer, reports))
  {
    var spec, t := s.app.spec, Cleaned(application, s, defer, reports);
    var doomed := Doomed(application, s, true, AllKinds());
    assert t.objects == if defer then s.objects else s.objects - doomed;
    assert IsCalm(t.objects, reports);
    forall i | 0 <= i < |spec.processes| ensures Desired(app, application, spec, t, spec.processes[i]) {
      assert Desired(app, application, spec, s, spec.processes[i]);
    }
  }

  lemma PromotedLive(app: string, application: Id, reports: Reports, rolled: State, hostname: string, status: Status, now: int)
    requires AllDesired(app, application, rolled.app.spec, rolled, |rolled.app.spec.processes|)
    requires hostname == rolled.app.spec.hostname && rolled.policy == Some(rolled.app.spec.egress)
    requires status.generation == rolled.app.generation && status.candidate == Some(rolled.app.spec.release) && status.fingerprint == Some(rolled.app.spec)
    requires status.started.Some? && MigrationDone(rolled.app.spec, status)
    ensures var total := Total(app, rolled.app.spec, reports, |rolled.app.spec.processes|);
            Live(app, application, reports, Promoted(app, rolled, reports, hostname, status, total, now))
  {
    var spec := rolled.app.spec;
    var calm := rolled.(objects := Calmed(rolled.objects, reports));
    var p := Promoted(app, rolled, reports, hostname, status, Total(app, spec, reports, |spec.processes|), now);
    AllDesiredCalmed(app, application, spec, rolled, reports);
    CalmTwice(rolled.objects, reports);
    forall i | 0 <= i < |spec.processes| ensures Desired(app, application, spec, p, spec.processes[i]) {
      assert Desired(app, application, spec, calm, spec.processes[i]);
    }
  }

  lemma FinishedLive(app: string, application: Id, defer: bool, reports: Reports, rolled: State,
                     route: Route, status: Status, serving: bool, now: int)
    requires AllDesired(app, application, rolled.app.spec, rolled, |rolled.app.spec.processes|)
    requires route.hostname == rolled.app.spec.hostname && rolled.policy == Some(rolled.app.spec.egress)
    requires status.generation == rolled.app.generation && status.candidate == Some(rolled.app.spec.release) && status.fingerprint == Some(rolled.app.spec)
    requires status.started.Some? && MigrationDone(rolled.app.spec, status)
    ensures var b := Finished(app, application, defer, reports, rolled, route, status, serving, now);
            Live(app, application, reports, b) && rolled.pending <= b.pending && b.app == rolled.app
  {
    hide Live, AllDesired, Calmed, Doomed;
    PromotedLive(app, application, reports, rolled, route.hostname, status, now);
    var p := Promoted(app, rolled, reports, route.hostname, status, Total(app, rolled.app.spec, reports, |rolled.app.spec.processes|), now);
    CleanedLive(app, application, defer, reports, p);
  }

  predicate AlreadyServing(app: string, spec: Spec, status: Status, found: bool, route: Route) {
    status.phase.Ready? && status.active == Some(spec.release) && found && route.enabled && route.backend == Some(NameOf(app, spec, spec.route))
  }

  /** Where a calm reconciliation of ready processes ends: live; and from a live state, in that state without leftovers. */
  lemma ActiveOutcome(app: string, application: Id, defer: bool, reports: Reports, s0: State, s1: State, rolled: State,
                      route: Route, found: bool, status: Status, s2: State, now: int)
    requires s1 == s0.(objects := Calmed(s0.objects, reports), policy := Some(s0.app.spec.egress))
    requires found == s1.route.Some? && route.hostname == s0.app.spec.hostname && (found ==> route == s1.route.value.(hostname := s0.app.spec.hostname))
    requires status == Tracked(s0.app.spec, s0.status.(generation := s0.app.generation), now)
    requires !Conflicting(s0.app.spec, s0.status.(generation := s0.app.generation))
    requires Unhindered(app, s0.app.spec, s0.status, reports) ==>
               && RolledFrom(s1, rolled) && AllDesired(app, application, s0.app.spec, rolled, |s0.app.spec.processes|)
               && (!defer && MigrationDone(s0.app.spec, s0.status) && IsCalm(s1.objects, reports) && AllDesired(app, application, s0.app.spec, s1, |s0.app.spec.processes|) ==>
                     rolled == s1)
               && s2 == Finished(app, application, defer, reports, rolled, route, PastMigration(s0.app.spec, status),
                                 AlreadyServing(app, s0.app.spec, s0.status, found, route), now)
    ensures Unhindered(app, s0.app.spec, s0.status, reports) ==> Live(app, application, reports, s2) && s0.pending <= s2.pending
    ensures !defer && Live(app, application, reports, s0) ==> s2 == Cleaned(application, s0, false, reports)
  {
    hide Live, Finished, AllDesired, Cleaned;
    if Unhindered(app, s0.app.spec, s0.status, reports) {
      FinishedLive(app, application, defer, reports, rolled, route, PastMigration(s0.app.spec, status),
                   AlreadyServing(app, s0.app.spec, s0.status, found, route), now);
    }
    if !defer && Live(app, application, reports, s0) {
      LiveBegins(app, application, reports, s0);
      LiveAgain(app, application, reports, s0, now);
    }
  }

  lemma LiveBegins(app: string, application: Id, reports: Reports, s: State)
    requires Live(app, application, reports, s)
    ensures s.(objects := Calmed(s.objects, reports), policy := Some(s.app.spec.egress)) == s && IsCalm(s.objects, reports)
    ensures AllDesired(app, application, s.app.spec, s, |s.app.spec.processes|) && s.status.generation == s.app.generation
    ensures s.route == Some(RouteOf(app, s.app.spec, s.app.spec.hostname)) && MigrationDone(s.app.spec, s.status)
    ensures s.status.phase.Ready? && s.status.active == Some(s.app.spec.release) && Unhindered(app, s.app.spec, s.status, reports)
    ensures PastMigration(s.app.spec, s.status) == s.status
  {}

  /** A live state is its own outcome, up to cleaning. */
  lemma LiveAgain(app: string, application: Id, reports: Reports, s: State, now: int)
    requires Live(app, application, reports, s)
    ensures Finished(app, application, false, reports, s, s.route.value, PastMigration(s.app.spec, Tracked(s.app.spec, s.status, now)), true, now)
            == Cleaned(application, s, false, reports)
  {
    var total := Total(app, s.app.spec, reports, |s.app.spec.processes|);
    assert Completed(app, s.app.spec, s.status, total, s.app.generation, now) == s.status;
    assert Promoted(app, s, reports, s.app.spec.hostname, s.status, total, now) == s;
  }

  lemma AllDesiredStays(app: string, application: Id, spec: Spec, a: State, b: State)
    requires AllDesired(app, application, spec, a, |spec.processes|) && Touches(a, b, {})
    ensures AllDesired(app, application, spec, b, |spec.processes|)
  {
    forall i | 0 <= i < |spec.processes| ensures Desired(app, application, spec, b, spec.processes[i]) {
      assert Desired(app, application, spec, a, spec.processes[i]);
      KeepsOthers(app, application, spec, spec.processes[i], a, b, {});
    }
  }

  function Completed(app: string, spec: Spec, status: Status, ready: int, generation: int, now: int): Status {
    status.(
      phase := Phase.Ready, active := Some(spec.release), backend := Some(NameOf(app, spec, spec.route)), port := PortOf(spec, spec.route),
      url := Some("https://" + spec.hostname), ready := ready,
      condition := Some(SetCondition(status.condition, true, RolloutComplete, "", generation, now)))
  }

  /** In calm weather: the state a promotion leaves. */
  ghost function Promoted(app: string, s: State, reports: Reports, hostname: string, status: Status, ready: int, now: int): State {
    var spec := s.app.spec;
    s.(objects := Calmed(s.objects, reports), promoted := s.promoted + {spec.release},
       route := Some(RouteOf(app, spec, hostname)),
       status := Completed(app, spec, status, ready, s.app.generation, now))
  }

  /** In calm weather: nothing of another release is left, or all of it is marked for deletion. */
  ghost function Cleaned(application: Id, s: State, defer: bool, reports: Reports): State {
    Requested(s, defer, reports, Doomed(application, s, true, AllKinds()))
  }

  /** The route process, which a valid spec has. */
  function RoutePort(spec: Spec): (port: int)
    requires ValidSpec(spec)
    ensures port == PortOf(spec, spec.route) && port > 0
  {
    RouteProcess(spec);
    PortOf(spec, spec.route)
  }

  lemma RouteProcess(spec: Spec)
    requires ValidSpec(spec)
    ensures exists p :: p in spec.processes && p.name == spec.route && p.port > 0 && p.port == PortOf(spec, spec.route)
  {
    var p :| p in spec.processes && p.name == spec.route && p.port > 0;
    PortFound(spec.processes, p);
  }

  lemma DesiredServes(ctx: Context, app: string, application: Id, spec: Spec, s: State)
    requires ValidSpec(spec) && AllDesired(app, application, spec, s, |spec.processes|) && ctx.app == app && ctx.application == application && spec.release in s.promoted
    ensures var k := Key(ServiceKind, NameOf(app, spec, spec.route));
            k in s.objects && s.objects[k] == Service(LabelsOf(application, spec), PortOf(spec, spec.route), spec.route)
            && Serves(ctx, s.objects, s.promoted, k.name)
  {
    RouteProcess(spec);
    var p :| p in spec.processes && p.name == spec.route && p.port > 0 && p.port == PortOf(spec, spec.route);
    var i :| 0 <= i < |spec.processes| && spec.processes[i] == p;
    assert Desired(app, application, spec, s, spec.processes[i]);
  }

  lemma PublishedAnchors(ctx: Context, a: State, b: State, r: Route, st: Status)
    requires Touches(a.(route := Some(r), status := st), b, {}) && r.backend.Some? && st.backend == r.backend
    requires IsCurrent(a, r.backend)
    ensures Anchored(ctx, b, true)
  {}

  function SetCondition(c: Option<Condition>, ready: bool, reason: Reason, message: string, generation: int, now: int): Condition {
    if c.Some? && c.value.ready == ready && c.value.reason == reason && c.value.message == message then c.value.(generation := generation)
    else Condition(ready, reason, message, generation, now)
  }

  predicate TimedOut(spec: Spec, status: Status, now: int) {
    spec.timeout > 0 && status.started.Some? && now - status.started.value > spec.timeout
  }

  /** An outcome other than ready: the recorded active release stays, and serves whenever it can; the condition says when it
      cannot. Without a recorded active release there is no traffic. A rollout still under way has not timed out. */
  predicate Tells(app: App, before: Status, st: Status, r: Route, now: int) {
    && (st.phase.Degraded? || st.phase.Deploying?) && st.active == before.active
    && (before.active.None? ==> !r.enabled)
    && st.condition.Some? && !st.condition.value.ready && st.condition.value.generation == app.generation
    && (st.phase.Deploying? <==> st.condition.value.reason in {MigrationRunning, Progressing})
    && (st.phase.Deploying? ==> !TimedOut(app.spec, st, now))
    && (before.active.Some? && !app.lifecycle.Resuming? ==> (r.enabled <==> st.condition.value.reason != PreviousReleaseUnavailable))
  }

  /** The status while a migration is pending: unavailability first, then failure, then lateness. */
  function Awaited(app: App, status: Status, available: bool, failed: bool, message: string, now: int): Status {
    var late := TimedOut(app.spec, status, now);
    var reason := if !available then PreviousReleaseUnavailable else if failed then MigrationFailed else if late then RolloutTimeout else MigrationRunning;
    status.(
      phase := if !available || failed || late then Phase.Degraded else Phase.Deploying,
      condition := Some(SetCondition(status.condition, false, reason, if available && failed then message else "", app.generation, now)))
  }

  lemma AwaitedTells(app: App, before: Status, status: Status, r: Route, available: bool, failed: bool, message: string, now: int)
    requires status.active == before.active
    requires if before.active.Some? && !app.lifecycle.Resuming? then r.enabled <==> available else available && !r.enabled
    ensures Tells(app, before, Awaited(app, status, available, failed, message, now), r, now)
  {}

  /** An enabled route leads to a service labelled for this release of the application. */
  predicate LeadsTo(s: State, labels: Labels) {
    && s.route.Some? && s.route.value.backend.Some?
    && var k := Key(ServiceKind, s.route.value.backend.value); k in s.objects && s.objects[k].Service? && s.objects[k].labels == labels
  }

  lemma TouchesSame(a: State, b: State)
    requires Touches(a, b, {})
    ensures b.app == a.app && b.route == a.route && b.status == a.status
  {}

  /** Nothing ready is told. */
  lemma HeldNotReady(application: Id, before: Status, now: int, s: State)
    requires Held(application, before, now, s)
    ensures !s.status.phase.Ready?
  {}

  lemma LeadsStill(s0: State, a: State, b: State, labels: Labels)
    requires Touches(a, b, {}) && a.objects == s0.objects
    ensures LeadsTo(s0.(route := a.route), labels) ==> LeadsTo(b, labels)
  {
    if a.route.Some? && a.route.value.backend.Some? && Key(ServiceKind, a.route.value.backend.value) in a.objects {
      assert SameButReport(a.objects[Key(ServiceKind, a.route.value.backend.value)], b.objects[Key(ServiceKind, a.route.value.backend.value)]);
    }
  }

  lemma SameObjectsDesired(app: string, application: Id, spec: Spec, a: State, b: State, p: Process)
    requires a.objects == b.objects && a.pending == b.pending
    ensures Desired(app, application, spec, a, p) <==> Desired(app, application, spec, b, p)
  {}

  /** What is told is true of the route, and whatever traffic there is goes to the recorded active release. */
  predicate Held(application: Id, before: Status, now: int, s: State) {
    && s.route.Some? && Tells(s.app, before, s.status, s.route.value, now)
    && (s.route.value.enabled ==> LeadsTo(s, Labels(application, before.active.value)))
  }

  function Unrouted(route: Route): Route {
    route.(backend := None, port := 0, enabled := false)
  }

  const KINDS: seq<Kind> := [DeploymentKind, ServiceKind, HpaKind, JobKind]

  predicate Matches(application: Id, o: Object, current: Id, staleOnly: bool) {
    o.labels.application == application && (!staleOnly || o.labels.release != current)
  }

  /** The objects a deletion is about: all of the application's, or those of releases other than the current one. */
  ghost function Doomed(application: Id, s: State, staleOnly: bool, kinds: set<Kind>): set<Key> {
    set k | k in s.objects && k.kind in kinds && Matches(application, s.objects[k], s.app.spec.release, staleOnly)
  }

  ghost function Marks(keys: set<Key>): set<Target> {
    set k | k in keys :: OnObject(k)
  }

  /** In calm weather: the keys are gone, or marked for deletion. */
  ghost function Requested(s: State, defer: bool, reports: Reports, keys: set<Key>): State {
    if defer then s.(objects := Calmed(s.objects, reports), pending := s.pending + Marks(keys))
    else s.(objects := Calmed(s.objects, reports) - keys)
  }

  ghost predicate OnlyStale(s: State, keys: set<Key>, staleOnly: bool) {
    staleOnly ==> forall k | k in keys && k in s.objects :: s.objects[k].labels.release != s.app.spec.release
  }

  predicate IsCurrent(s: State, backend: Option<Name>) {
    backend.Some? && Key(ServiceKind, backend.value) in s.objects && s.objects[Key(ServiceKind, backend.value)].labels.release == s.app.spec.release
  }

  /** What a deletion must leave alone: nothing depends on any workload, or only on those of the current release. */
  predicate Anchored(ctx: Context, s: State, staleOnly: bool) {
    if staleOnly then
      && (s.route.Some? && s.route.value.enabled ==> IsCurrent(s, s.route.value.backend))
      && (ctx.Steady() && s.status.active.Some? ==> IsCurrent(s, s.status.backend))
    else s.route.None? && !ctx.Steady()
  }

  /** Nothing appears; reports may change. */
  ghost predicate Recedes(a: State, b: State) {
    && b == a.(objects := b.objects, route := b.route, policy := b.policy, pending := b.pending)
    && (forall k | k in b.objects :: k in a.objects && SameButReport(a.objects[k], b.objects[k]))
    && (a.route.None? ==> b.route.None?) && (a.policy.None? ==> b.policy.None?)
  }

  lemma RecedesSelf(a: State)
    ensures Recedes(a, a)
  {}

  lemma RecedesRoute(a: State, b: State)
    requires Recedes(a, b)
    ensures a.route.None? ==> b.route.None?
    ensures b.app == a.app && b.status == a.status
  {}

  lemma RecedesTransitive(a: State, b: State, c: State)
    requires Recedes(a, b) && Recedes(b, c)
    ensures Recedes(a, c)
  {}

  lemma RecedesDrift(a: State, b: State)
    requires Drift(a, b)
    ensures Recedes(a, b)
  {}

  lemma AnchoredRemovable(ctx: Context, s: State, k: Key, keys: set<Key>, staleOnly: bool)
    requires Good(ctx, s) && Anchored(ctx, s, staleOnly) && OnlyStale(s, keys, staleOnly) && k in keys
    ensures Removable(ctx, s, k)
  {
    hide Gated, Remembered, Ported;
  }

  lemma AnchoredStays(ctx: Context, a: State, b: State, staleOnly: bool)
    requires Anchored(ctx, a, staleOnly) && Drift(a, b) && a.pending == {}
    ensures Anchored(ctx, b, staleOnly)
  {}

  function Deletion(mid: State, k: Key, ok: bool, defer: bool): State {
    if !ok then mid else if defer then mid.(pending := mid.pending + {OnObject(k)}) else mid.(objects := mid.objects - {k})
  }

  lemma DeletedRecedes(ctx: Context, s0: State, a: State, mid: State, b: State, k: Key, ok: bool, defer: bool, keys: set<Key>, staleOnly: bool)
    requires Recedes(s0, a) && Drift(a, mid) && b == Deletion(mid, k, ok, defer) && OnlyStale(a, keys, staleOnly) && k in keys
    requires !defer ==> a.pending == {} && Anchored(ctx, a, staleOnly)
    ensures Recedes(s0, b) && OnlyStale(b, keys, staleOnly) && (!defer ==> Anchored(ctx, b, staleOnly))
  {
    RecedesDrift(a, mid);
    assert Recedes(mid, b);
    RecedesTransitive(s0, a, mid);
    RecedesTransitive(s0, mid, b);
    if !defer {
      AnchoredStays(ctx, a, mid, staleOnly);
    }
  }

  ghost function Kinds(n: nat): set<Kind>
    requires n <= |KINDS|
  {
    set kind | kind in KINDS[..n]
  }

  ghost function AllKinds(): set<Kind> {
    Kinds(|KINDS|)
  }

  lemma NextKind(n: nat)
    requires n < |KINDS|
    ensures Kinds(n + 1) == Kinds(n) + {KINDS[n]} && KINDS[n] !in Kinds(n) && KINDS[n] in AllKinds()
  {
    assert KINDS[..n + 1] == KINDS[..n] + [KINDS[n]];
  }

  lemma NoKinds(application: Id, s: State, staleOnly: bool)
    ensures Doomed(application, s, staleOnly, Kinds(0)) == {}
  {}

  lemma ListedDoomed(application: Id, s: State, staleOnly: bool, kind: Kind, found: set<Key>)
    requires found == set k | k in s.objects && k.kind == kind && s.objects[k].labels.application == application
    ensures Doomed(application, s, staleOnly, {kind})
            == set k | k in found && k in s.objects && (!staleOnly || s.objects[k].labels.release != s.app.spec.release)
  {}

  lemma DoomedStale(application: Id, s: State, staleOnly: bool, kind: Kind)
    ensures OnlyStale(s, Doomed(application, s, staleOnly, {kind}), staleOnly)
  {}

  /** Reports do not matter to what is doomed. */
  lemma CalmDoomed(application: Id, s: State, reports: Reports, staleOnly: bool, kinds: set<Kind>)
    ensures Doomed(application, s.(objects := Calmed(s.objects, reports)), staleOnly, kinds) == Doomed(application, s, staleOnly, kinds)
  {}

  lemma DoomedRecedes(application: Id, a: State, b: State, staleOnly: bool, i: nat)
    requires Recedes(a, b) && i < |KINDS| && Doomed(application, a, staleOnly, Kinds(i)) == {}
    ensures Doomed(application, b, staleOnly, Kinds(i + 1)) == Doomed(application, b, staleOnly, {KINDS[i]})
    ensures Doomed(application, b, staleOnly, {KINDS[i]}) <= Doomed(application, b, staleOnly, AllKinds())
  {
    NextKind(i);
    forall k | k in b.objects && k.kind in Kinds(i) ensures !Matches(application, b.objects[k], b.app.spec.release, staleOnly) {
      assert SameButReport(a.objects[k], b.objects[k]);
      assert k !in Doomed(application, a, staleOnly, Kinds(i));
    }
  }

  ghost function RequestedUpTo(application: Id, s: State, defer: bool, reports: Reports, staleOnly: bool, n: nat): State
    requires n <= |KINDS|
  {
    if n == 0 then s else Requested(s, defer, reports, Doomed(application, s, staleOnly, Kinds(n)))
  }

  lemma RequestedKinds(application: Id, s0: State, defer: bool, reports: Reports, staleOnly: bool, i: nat)
    requires i < |KINDS|
    ensures var a := RequestedUpTo(application, s0, defer, reports, staleOnly, i);
            Requested(a, defer, reports, Doomed(application, a, staleOnly, {KINDS[i]}))
            == RequestedUpTo(application, s0, defer, reports, staleOnly, i + 1)
  {
    NextKind(i);
    var a := RequestedUpTo(application, s0, defer, reports, staleOnly, i);
    var x, y := Doomed(application, s0, staleOnly, Kinds(i)), Doomed(application, s0, staleOnly, {KINDS[i]});
    assert Doomed(application, s0, staleOnly, Kinds(i + 1)) == x + y;
    assert Doomed(application, a, staleOnly, {KINDS[i]}) == y;
    RequestedTwice(s0, defer, reports, x, y);
    if i == 0 {
      NoKinds(application, s0, staleOnly);
      assert x + y == y;
    }
  }

  lemma RequestedTwice(s: State, defer: bool, reports: Reports, x: set<Key>, y: set<Key>)
    ensures Requested(Requested(s, defer, reports, x), defer, reports, y) == Requested(s, defer, reports, x + y)
  {
    assert Marks(x + y) == Marks(x) + Marks(y);
  }

  /** Once requested: with immediate deletion nothing is left, with deferred deletion everything still is. */
  lemma RequestedLeaves(application: Id, s: State, defer: bool, reports: Reports, staleOnly: bool)
    ensures var d := Doomed(application, s, staleOnly, AllKinds());
            var after := Requested(s, defer, reports, d);
            Doomed(application, after, staleOnly, AllKinds()) == (if defer then d else {})
            && after.(objects := Calmed(after.objects, reports)) == after && after.policy == s.policy
  {
    CalmDoomed(application, s, reports, staleOnly, AllKinds());
    CalmTwice(s.objects, reports);
  }

  lemma RequestedAfterCalm(application: Id, s0: State, s1: State, defer: bool, reports: Reports, staleOnly: bool, kinds: set<Kind>)
    requires s1 == s0.(objects := Calmed(s0.objects, reports))
    ensures Requested(s1, defer, reports, Doomed(application, s1, staleOnly, kinds)) == Requested(s0, defer, reports, Doomed(application, s0, staleOnly, kinds))
  {
    CalmDoomed(application, s0, reports, staleOnly, kinds);
    CalmTwice(s0.objects, reports);
  }

  lemma RequestedNone(s: State, defer: bool, reports: Reports)
    ensures IsCalm(s.objects, reports) ==> s == Requested(s, defer, reports, {})
  {}

  lemma OnlyFewer(s: State, keys: set<Key>, fewer: set<Key>, staleOnly: bool)
    requires OnlyStale(s, keys, staleOnly) && fewer <= keys
    ensures OnlyStale(s, fewer, staleOnly)
  {}

  lemma RequestedNext(s0: State, a: State, b: State, defer: bool, reports: Reports, done: set<Key>, k: Key)
    requires IsCalm(s0.objects, reports) && a == Requested(s0, defer, reports, done)
    requires b == Deletion(a.(objects := Calmed(a.objects, reports)), k, true, defer)
    ensures b == Requested(s0, defer, reports, done + {k})
  {}

  lemma TouchesNothing(a: State)
    ensures Touches(a, a, {})
  {}

  lemma FlowingStays(ctx: Context, a: State, b: State, status: Status, route: Option<Route>)
    requires Touches(a, b, {}) && Flowing(ctx, a.objects, status, route)
    ensures Flowing(ctx, b.objects, status, route)
  {}

  lemma PublishTouches(s0: State, mid: State, s1: State, last: State, s2: State, r: Route, st: Status)
    requires Touches(s0, mid, {}) && s1 == mid.(route := Some(r)) && s1.pending == {} && Drift(s1, last) && s2 == last.(status := st)
    ensures Touches(s0.(route := Some(r), status := st), s2, {})
  {
    DriftTouches(s1, last);
  }

  lemma BackedStays(ctx: Context, a: State, b: State, status: Status)
    requires Touches(a, b, {})
    ensures Backed(ctx, a.objects, status) ==> Backed(ctx, b.objects, status)
  {}

  ghost function ProcessKeys(app: string, spec: Spec, p: Process): set<Key> {
    {ProcessKey(DeploymentKind, app, spec, p), ProcessKey(ServiceKind, app, spec, p), ProcessKey(HpaKind, app, spec, p)}
  }

  ghost predicate AllDesired(app: string, application: Id, spec: Spec, s: State, n: nat)
    requires n <= |spec.processes|
  {
    forall i | 0 <= i < n :: Desired(app, application, spec, s, spec.processes[i])
  }

  /** In calm weather: the replicas reported by the first n processes. */
  ghost function Total(app: string, spec: Spec, reports: Reports, n: nat): int
    requires n <= |spec.processes|
  {
    if n == 0 then 0 else Total(app, spec, reports, n - 1) + reports.of(NameOf(app, spec, spec.processes[n - 1].name)).ready
  }

  /** In calm weather: every process reports ready. */
  ghost predicate AllReady(app: string, spec: Spec, reports: Reports) {
    forall p | p in spec.processes :: ReportsReady(app, spec, reports, p)
  }

  ghost predicate ReportsReady(app: string, spec: Spec, reports: Reports, p: Process) {
    var r := reports.of(NameOf(app, spec, p.name)); !r.failed && r.ready >= p.minReplicas
  }

  lemma CalmKeeps(app: string, application: Id, spec: Spec, s: State, reports: Reports, p: Process)
    requires Desired(app, application, spec, s, p)
    ensures Desired(app, application, spec, s.(objects := Calmed(s.objects, reports)), p)
  {}

  /** What one piece put in place, a piece that touches other keys leaves in place. */
  lemma KeepsOthers(app: string, application: Id, spec: Spec, p: Process, a: State, b: State, keys: set<Key>)
    requires Touches(a, b, keys)
    ensures ProcessKey(DeploymentKind, app, spec, p) !in keys && HasDeployment(app, application, spec, a.objects, p) ==> HasDeployment(app, application, spec, b.objects, p)
    ensures ProcessKey(ServiceKind, app, spec, p) !in keys && HasService(app, application, spec, a.objects, p) ==> HasService(app, application, spec, b.objects, p)
    ensures ProcessKey(HpaKind, app, spec, p) !in keys && HasHpa(app, application, spec, a, p) ==> HasHpa(app, application, spec, b, p)
  {}

  lemma TouchesMore(a: State, b: State, keys: set<Key>, more: set<Key>)
    requires Touches(a, b, keys) && keys <= more
    ensures Touches(a, b, more)
  {}

  lemma ProcessTouches(app: string, application: Id, spec: Spec, p: Process, s0: State, s1: State, s2: State, s3: State)
    requires HasDeployment(app, application, spec, s1.objects, p) && Touches(s0, s1, {ProcessKey(DeploymentKind, app, spec, p)})
    requires HasService(app, application, spec, s2.objects, p) && (s2 == s1 || Touches(s1, s2, {ProcessKey(ServiceKind, app, spec, p)}))
    requires HasHpa(app, application, spec, s3, p) && Touches(s2, s3, {ProcessKey(HpaKind, app, spec, p)})
    ensures Desired(app, application, spec, s3, p) && Touches(s0, s3, ProcessKeys(app, spec, p))
  {
    hide HasDeployment, HasService, HasHpa;
    var service := {ProcessKey(ServiceKind, app, spec, p)};
    assert Touches(s1, s2, service);
    hide Touches;
    KeepsOthers(app, application, spec, p, s1, s2, service);
    KeepsOthers(app, application, spec, p, s2, s3, {ProcessKey(HpaKind, app, spec, p)});
    TouchesBoth(s0, s1, s2, {ProcessKey(DeploymentKind, app, spec, p)}, service);
    TouchesBoth(s0, s2, s3, {ProcessKey(DeploymentKind, app, spec, p)} + service, {ProcessKey(HpaKind, app, spec, p)});
    TouchesMore(s0, s3, {ProcessKey(DeploymentKind, app, spec, p)} + service + {ProcessKey(HpaKind, app, spec, p)}, ProcessKeys(app, spec, p));
  }

  lemma NextDesired(app: string, application: Id, spec: Spec, a: State, b: State, i: nat)
    requires i < |spec.processes| && Distinct(spec.processes) && AllDesired(app, application, spec, a, i)
    requires Touches(a, b, ProcessKeys(app, spec, spec.processes[i])) && Desired(app, application, spec, b, spec.processes[i])
    ensures AllDesired(app, application, spec, b, i + 1)
  {
    forall j | 0 <= j < i ensures Desired(app, application, spec, b, spec.processes[j]) {
      assert Desired(app, application, spec, a, spec.processes[j]);
      KeepsOthers(app, application, spec, spec.processes[j], a, b, ProcessKeys(app, spec, spec.processes[i]));
    }
  }
}
