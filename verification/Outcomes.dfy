/** What a reconciliation that goes through tells: first as it is computed, then written out case by case. */
module Outcomes {
  import opened Int64
  import opened Cluster
  import opened MemoryClient
  import opened Steering

  // ---------------------------------------------------------------- the previous release

  /** The recorded backend, or the one that has the traffic if none was recorded. */
  function Chosen(status: Status, route: Route): (c: (Option<Name>, int)) {
    if status.backend.None? && route.enabled then (route.backend, route.port) else (status.backend, status.port)
  }

  /** That backend is a service of the recorded active release, on the recorded port. */
  predicate Available(application: Id, objects: map<Key, Object>, status: Status, route: Route) {
    var (backend, port) := Chosen(status, route);
    && status.active.Some? && backend.Some? && port > 0
    && var k := Key(ServiceKind, backend.value);
       k in objects && objects[k].Service? && objects[k].port == port && objects[k].labels == Labels(application, status.active.value)
  }

  lemma AvailableCalmed(application: Id, objects: map<Key, Object>, reports: Reports, status: Status, route: Route)
    ensures Available(application, Calmed(objects, reports), status, route) <==> Available(application, objects, status, route)
  {}

  /** Traffic goes back to the recorded active release if it is to be held and is there. */
  function HeldRoute(application: Id, objects: map<Key, Object>, status: Status, route: Route, hold: bool, idle: Route): Route {
    if !hold then idle
    else if Available(application, objects, status, route) then Route(Chosen(status, route).0, Chosen(status, route).1, true, route.hostname)
    else Unrouted(route)
  }

  function HeldStatus(application: Id, objects: map<Key, Object>, status: Status, route: Route, hold: bool): Status {
    if hold && Available(application, objects, status, route) then status.(backend := Chosen(status, route).0, port := Chosen(status, route).1)
    else status
  }

  // ---------------------------------------------------------------- as computed

  /** The status while the candidate is rolling out; the absence of a held release overrides what it would have said. */
  function Progress(app: App, status: Status, ready: int, failed: bool, message: string, now: int): Status {
    var late := TimedOut(app.spec, status, now);
    var reason := if failed then RolloutFailed else if late then RolloutTimeout else Progressing;
    status.(
      phase := if failed || late then Phase.Degraded else Phase.Deploying, ready := if failed || late then status.ready else ready,
      condition := Some(SetCondition(status.condition, false, reason, if failed then message else "", app.generation, now)))
  }

  function OrMissing(app: App, status: Status, available: bool, now: int): Status {
    if available then status
    else status.(phase := Phase.Degraded,
                 condition := Some(SetCondition(status.condition, false, PreviousReleaseUnavailable, "", app.generation, now)))
  }

  function Refused(app: App, status: Status, available: bool, now: int): Status {
    status.(phase := Phase.Degraded,
            condition := Some(SetCondition(status.condition, false, if available then ReleaseIdentityConflict else PreviousReleaseUnavailable, "",
                                           app.generation, now)))
  }

  function Idle(app: string, spec: Spec, hostname: string): Route {
    Route(Some(NameOf(app, spec, spec.route)), PortOf(spec, spec.route), false, hostname)
  }

  predicate Holds(app: App, status: Status) {
    status.active.Some? && !app.lifecycle.Resuming?
  }

  /** In calm weather: the state left while the spec is refused, while its migration and while its rollout are under way. */
  ghost function Refusing(application: Id, reports: Reports, s: State, route: Route, status: Status, now: int): State {
    var hold := status.active.Some?;
    var available := !hold || Available(application, s.objects, status, route);
    s.(objects := Calmed(s.objects, reports), route := Some(HeldRoute(application, s.objects, status, route, hold, Unrouted(route))),
       status := Refused(s.app, HeldStatus(application, s.objects, status, route, hold), available, now))
  }

  ghost function Migrating(application: Id, reports: Reports, s: State, route: Route, status: Status, failed: bool, message: string, now: int): State {
    var hold := Holds(s.app, status);
    var available := !hold || Available(application, s.objects, status, route);
    s.(objects := Calmed(s.objects, reports), route := Some(HeldRoute(application, s.objects, status, route, hold, Unrouted(route))),
       status := Awaited(s.app, HeldStatus(application, s.objects, status, route, hold), available, failed, message, now))
  }

  ghost function RollingOut(name: string, application: Id, reports: Reports, s: State, route: Route, status: Status,
                            ready: int, failed: bool, message: string, now: int): State
  {
    var hold := Holds(s.app, status);
    var available := !hold || Available(application, s.objects, status, route);
    var told := Progress(s.app, status, ready, failed, message, now);
    s.(objects := Calmed(s.objects, reports),
       route := Some(HeldRoute(application, s.objects, status, route, hold, Idle(name, s.app.spec, route.hostname))),
       status := OrMissing(s.app, HeldStatus(application, s.objects, told, route, hold), available, now))
  }

  lemma RollingOutCalmed(name: string, application: Id, reports: Reports, a: State, b: State, route: Route, status: Status,
                         ready: int, failed: bool, message: string, now: int)
    requires b == a || b == a.(objects := Calmed(a.objects, reports))
    ensures RollingOut(name, application, reports, b, route, status, ready, failed, message, now)
            == RollingOut(name, application, reports, a, route, status, ready, failed, message, now)
  {
    hide Available, Calmed;
    var told := Progress(a.app, status, ready, failed, message, now);
    AvailableCalmed(application, a.objects, reports, status, route);
    AvailableCalmed(application, a.objects, reports, told, route);
    CalmTwice(a.objects, reports);
  }

  lemma RefusingCalmed(application: Id, reports: Reports, a: State, b: State, route: Route, status: Status, now: int)
    requires b == a || b == a.(objects := Calmed(a.objects, reports))
    ensures Refusing(application, reports, b, route, status, now) == Refusing(application, reports, a, route, status, now)
  {
    hide Available, Calmed;
    AvailableCalmed(application, a.objects, reports, status, route);
    CalmTwice(a.objects, reports);
  }

  lemma MigratingCalmed(application: Id, reports: Reports, a: State, b: State, route: Route, status: Status, failed: bool, message: string, now: int)
    requires b == a || b == a.(objects := Calmed(a.objects, reports))
    ensures Migrating(application, reports, b, route, status, failed, message, now) == Migrating(application, reports, a, route, status, failed, message, now)
  {
    hide Available, Calmed;
    AvailableCalmed(application, a.objects, reports, status, route);
    CalmTwice(a.objects, reports);
  }

  /** What the last failing process of the first n reports. */
  function LastFailure(app: string, spec: Spec, reports: Reports, n: nat): Option<string>
    requires n <= |spec.processes|
  {
    if n == 0 then None
    else
      var r := reports.of(NameOf(app, spec, spec.processes[n - 1].name));
      if r.failed then Some(r.message) else LastFailure(app, spec, reports, n - 1)
  }

  // ---------------------------------------------------------------- written out

  /** Process i reports a failure, and no later one does. */
  ghost predicate FailsLast(app: string, spec: Spec, reports: Reports, i: nat) {
    && i < |spec.processes| && reports.of(Name(app, spec.processes[i].name, spec.release)).failed
    && forall j | i < j < |spec.processes| :: !reports.of(Name(app, spec.processes[j].name, spec.release)).failed
  }

  lemma {:induction false} FailureFound(app: string, spec: Spec, reports: Reports, n: nat) returns (i: nat)
    requires n <= |spec.processes|
    requires forall j | n <= j < |spec.processes| :: !reports.of(Name(app, spec.processes[j].name, spec.release)).failed
    ensures LastFailure(app, spec, reports, n).Some? ==>
              FailsLast(app, spec, reports, i)
              && LastFailure(app, spec, reports, n).value == reports.of(Name(app, spec.processes[i].name, spec.release)).message
    ensures LastFailure(app, spec, reports, n).None? ==>
              forall j | 0 <= j < |spec.processes| :: !reports.of(Name(app, spec.processes[j].name, spec.release)).failed
  {
    i := 0;
    if n > 0 {
      if reports.of(NameOf(app, spec, spec.processes[n - 1].name)).failed {
        i := n - 1;
      } else {
        i := FailureFound(app, spec, reports, n - 1);
      }
    }
  }

  lemma FailedNotReady(app: string, spec: Spec, reports: Reports)
    requires LastFailure(app, spec, reports, |spec.processes|).Some?
    ensures !AllReady(app, spec, reports)
  {
    var i := FailureFound(app, spec, reports, |spec.processes|);
    assert !ReportsReady(app, spec, reports, spec.processes[i]);
  }

  predicate Says(after: Option<Condition>, ready: bool, reason: Reason, message: string, generation: int) {
    && after.Some? && after.value.ready == ready && after.value.reason == reason && after.value.message == message
    && after.value.generation == generation
  }

  /** The time of a condition that stays as it was is kept, and any other is stamped anew. */
  predicate Stamped(before: Option<Condition>, after: Condition, now: int) {
    after.since == if before.Some? && before.value == after.(since := before.value.since, generation := before.value.generation) then before.value.since else now
  }

  /** The recorded active release has a service of its own on the recorded port; a backend that was never recorded is the one
      that has the traffic. */
  predicate OnRecord(application: Id, a: State, b: State) {
    var adopt := a.status.backend.None? && a.route.Some? && a.route.value.enabled;
    var backend := if adopt then a.route.value.backend else a.status.backend;
    var port := if adopt then a.route.value.port else a.status.port;
    && a.status.active.Some? && backend.Some? && port > 0 && Key(ServiceKind, backend.value) in b.objects
    && var o := b.objects[Key(ServiceKind, backend.value)];
       o.Service? && o.port == port && o.labels.application == application && o.labels.release == a.status.active.value
  }

  lemma OnRecordExactly(application: Id, a: State, b: State)
    ensures OnRecord(application, a, b) <==>
            Available(application, b.objects, a.status, if a.route.Some? then a.route.value else Route(None, 0, false, ""))
  {}

  /** The route and the record of the previous release: traffic goes to it if it is to be held and available, and otherwise
      nowhere; then the route names nothing, or what it is idle for. */
  ghost predicate Back(application: Id, a: State, b: State, held: bool, missing: bool, idle: Route) {
    var active, route := a.status.active, b.route;
    && route.Some? && route.value.hostname == a.app.spec.hostname && b.status.active == active
    && (route.value.enabled <==> held && !missing)
    && (held && !missing ==> active.Some? && LeadsTo(b, Labels(application, active.value))
                             && b.status.backend == route.value.backend && b.status.port == route.value.port)
    && (!(held && !missing) ==> b.status.backend == a.status.backend && b.status.port == a.status.port
                                && route.value == if held then Route(None, 0, false, a.app.spec.hostname) else idle)
  }

  /** What a calm reconciliation of a valid, wanted spec leaves, from what is stored, what workloads report and the time alone.
      The spec conflicts if it changed under its release; then its migration, then its rollout decide. */
  ghost predicate Answers(name: string, application: Id, defer: bool, reports: Reports, a: State, b: State, now: int) {
    var spec, before, after := a.app.spec, a.status, b.status;
    var conflict := before.candidate == Some(spec.release) && before.fingerprint.Some? && before.fingerprint.value != spec;
    var job := Name(name, "migration", spec.release);
    var since := if before.candidate == Some(spec.release) && before.started.Some? then before.started.value else now;
    var late := now - since > spec.timeout;
    var held := before.active.Some? && (conflict || a.app.lifecycle != Lifecycle.Resuming);
    var missing := held && !OnRecord(application, a, b);
    var nowhere := Route(None, 0, false, spec.hostname);
    && after.generation == a.app.generation && b.app == a.app && b.policy == Some(spec.egress)
    && (after.phase == Phase.Ready || Beside(a, b))
    && if conflict then
         && Back(application, a, b, held, missing, nowhere) && after.phase == Phase.Degraded
         && after.candidate == before.candidate && after.fingerprint == before.fingerprint && after.started == before.started
         && after.migrated == before.migrated && after.ready == before.ready && after.url == before.url
         && Says(after.condition, false, if missing then PreviousReleaseUnavailable else ReleaseIdentityConflict, "", a.app.generation)
         && Stamped(before.condition, after.condition.value, now)
       else
         && after.candidate == Some(spec.release) && after.fingerprint == Some(spec) && after.started == Some(since)
         && if spec.migration && before.migrated != Some(spec.release) && reports.ends(job) != Succeeded then
              var failed := reports.ends(job) == Failed;
              && Back(application, a, b, held, missing, nowhere)
              && (after.phase == if missing || failed || late then Phase.Degraded else Phase.Deploying)
              && after.migrated == before.migrated && after.ready == before.ready && after.url == before.url
              && Says(after.condition, false,
                      if missing then PreviousReleaseUnavailable else if failed then MigrationFailed else if late then RolloutTimeout else MigrationRunning,
                      if failed && !missing then reports.says(job) else "", a.app.generation)
              && Stamped(before.condition, after.condition.value, now)
            else
              && after.migrated == (if spec.migration then Some(spec.release) else before.migrated)
              && if exists p :: p in spec.processes && Unready(name, spec, reports, p) then Waits(name, application, reports, a, b, held, missing, late, now)
                 else
                   && InService(name, application, reports, b) && Stamped(before.condition, after.condition.value, now)
                   && if before.phase == Phase.Ready && before.active == Some(spec.release) && a.route.Some? && a.route.value.enabled
                         && a.route.value.backend == Some(Name(name, spec.route, spec.release))
                      then Tidied(application, defer, a, b) else Beside(a, b)
  }

  /** What other releases of the application left is gone, or marked if deletions are deferred; the rest of what there was
      beside the current release stays. */
  ghost predicate Tidied(application: Id, defer: bool, a: State, b: State) {
    && (forall k | k in b.objects && b.objects[k].labels.application == application && b.objects[k].labels.release != a.app.spec.release ::
          defer && OnObject(k) in b.pending)
    && (forall k | k in a.objects && k.name.release != a.app.spec.release && !(k in b.objects) ::
          !defer && a.objects[k].labels.application == application && a.objects[k].labels.release != a.app.spec.release)
  }

  /** What one process asks for is there: its deployment, a service if it has a port, an autoscaler exactly if it may grow. */
  predicate IsRunning(name: string, application: Id, reports: Reports, s: State, p: Process) {
    var spec := s.app.spec;
    var own := Name(name, p.name, spec.release);
    && Key(DeploymentKind, own) in s.objects
    && s.objects[Key(DeploymentKind, own)] == Deployment(Labels(application, spec.release), spec, reports.of(own))
    && (p.port > 0 ==>
          Key(ServiceKind, own) in s.objects && s.objects[Key(ServiceKind, own)] == Service(Labels(application, spec.release), p.port, p.name))
    && (p.maxReplicas > p.minReplicas ==>
          Key(HpaKind, own) in s.objects
          && s.objects[Key(HpaKind, own)] == Hpa(Labels(application, spec.release), p.minReplicas, p.maxReplicas))
    && (p.maxReplicas <= p.minReplicas && Key(HpaKind, own) in s.objects ==> OnObject(Key(HpaKind, own)) in s.pending)
  }

  /** The stored spec runs, has all the traffic, and says so. */
  ghost predicate InService(name: string, application: Id, reports: Reports, s: State) {
    var spec, status := s.app.spec, s.status;
    var backend := Name(name, spec.route, spec.release);
    && (forall p | p in spec.processes :: IsRunning(name, application, reports, s, p))
    && s.route == Some(Route(Some(backend), PortOf(spec, spec.route), true, spec.hostname))
    && status.phase == Phase.Ready && status.active == Some(spec.release)
    && status.backend == Some(backend) && status.port == PortOf(spec, spec.route)
    && status.url == Some("https://" + spec.hostname) && status.ready == Total(name, spec, reports, |spec.processes|)
    && Says(status.condition, true, RolloutComplete, "", s.app.generation)
  }

  /** A live state is in service. */
  lemma LiveInService(name: string, application: Id, reports: Reports, s: State)
    requires Live(name, application, reports, s)
    ensures InService(name, application, reports, s)
  {
    hide Total, PortOf;
    forall p | p in s.app.spec.processes ensures IsRunning(name, application, reports, s, p) {
      var i :| 0 <= i < |s.app.spec.processes| && s.app.spec.processes[i] == p;
      assert Desired(name, application, s.app.spec, s, s.app.spec.processes[i]);
    }
  }

  /** The route's port is that of the route's process, and the replicas of all processes are added up. */
  lemma SpecMeans(app: string, spec: Spec, reports: Reports, i: nat)
    requires Distinct(spec.processes) && i < |spec.processes|
    ensures spec.processes[i].name == spec.route ==> PortOf(spec, spec.route) == spec.processes[i].port
    ensures Total(app, spec, reports, 0) == 0
    ensures Total(app, spec, reports, i + 1)
            == Total(app, spec, reports, i) + reports.of(Name(app, spec.processes[i].name, spec.release)).ready
  {
    PortFound(spec.processes, spec.processes[i]);
  }

  ghost predicate Unready(name: string, spec: Spec, reports: Reports, p: Process) {
    var r := reports.of(Name(name, p.name, spec.release)); r.failed || r.ready < p.minReplicas
  }

  /** A rollout that is not ready has failed, is late or goes on; the last failing process has the word. */
  ghost predicate Waits(name: string, application: Id, reports: Reports, a: State, b: State, held: bool, missing: bool, late: bool, now: int) {
    var spec, after := a.app.spec, b.status;
    && Back(application, a, b, held, missing, Route(Some(Name(name, spec.route, spec.release)), PortOf(spec, spec.route), false, spec.hostname))
    && after.url == a.status.url
    && (forall i: nat | FailsLast(name, spec, reports, i) ::
          && after.phase == Phase.Degraded && after.ready == a.status.ready
          && Says(after.condition, false, if missing then PreviousReleaseUnavailable else RolloutFailed,
                  if missing then "" else reports.of(Name(name, spec.processes[i].name, spec.release)).message, a.app.generation))
    && ((forall i | 0 <= i < |spec.processes| :: !reports.of(Name(name, spec.processes[i].name, spec.release)).failed) ==>
          && (after.phase == if missing || late then Phase.Degraded else Phase.Deploying)
          && after.ready == (if late then a.status.ready else Total(name, spec, reports, |spec.processes|))
          && Says(after.condition, false,
                  if missing then PreviousReleaseUnavailable else if late then RolloutTimeout else Progressing, "", a.app.generation))
    && after.condition.Some? && (if missing then after.condition.value.since == now else Stamped(a.status.condition, after.condition.value, now))
  }

  /** The route as a reconciliation reads it. */
  function RouteRead(s: State): Route {
    (if s.route.Some? then s.route.value else Route(None, 0, false, "")).(hostname := s.app.spec.hostname)
  }

  /** Where a reconciliation begins. */
  predicate Begun(reports: Reports, a: State, s: State) {
    s == a.(objects := Calmed(a.objects, reports), policy := Some(a.app.spec.egress))
  }

  /** Holding the previous release, or leaving the idle route, in terms of what was stored before. */
  lemma HeldBack(application: Id, reports: Reports, a: State, s: State, status: Status, hold: bool, idle: Route, st: Status, b: State)
    requires s.route == a.route && s.app == a.app && s.status == a.status && !idle.enabled && idle.hostname == a.app.spec.hostname
    requires status.active == a.status.active && status.backend == a.status.backend && status.port == a.status.port
    requires hold ==> status.active.Some?
    requires st.active == status.active && (st.backend, st.port) == (HeldStatus(application, s.objects, status, RouteRead(a), hold).backend,
                                                                     HeldStatus(application, s.objects, status, RouteRead(a), hold).port)
    requires b == s.(objects := Calmed(s.objects, reports), route := Some(HeldRoute(application, s.objects, status, RouteRead(a), hold, idle)), status := st)
    ensures var missing := hold && !OnRecord(application, a, b);
            Back(application, a, b, hold, missing, idle) && (missing <==> hold && !Available(application, s.objects, status, RouteRead(a)))
  {
    OnRecordExactly(application, a, b);
    AvailableCalmed(application, s.objects, reports, status, RouteRead(a));
  }

  /** What a rollout leaves beside the current release, nobody's report mattering. */
  lemma RolledBeside(reports: Reports, a: State, s: State, rolled: State, b: State)
    requires Begun(reports, a, s) && RolledFrom(s, rolled) && b.objects == Calmed(rolled.objects, reports)
    ensures Beside(a, b)
  {
    var calm := a.(objects := Calmed(a.objects, reports));
    assert Beside(a, calm) && Beside(calm, rolled);
    BesideTransitive(a, calm, rolled);
    BesideTransitive(a, rolled, b);
  }

  lemma RefusingAnswers(name: string, application: Id, defer: bool, reports: Reports, a: State, s: State, status: Status, now: int)
    requires Begun(reports, a, s) && Conflicting(a.app.spec, a.status) && status == a.status.(generation := a.app.generation)
    ensures Answers(name, application, defer, reports, a, Refusing(application, reports, s, RouteRead(a), status, now), now)
  {
    hide Available, OnRecord, Back, Calmed, HeldRoute, Beside, RolledFrom;
    var b := Refusing(application, reports, s, RouteRead(a), status, now);
    RolledSelf(s);
    RolledBeside(reports, a, s, s, b);
    HeldBack(application, reports, a, s, status, status.active.Some?, Unrouted(RouteRead(a)), b.status, b);
  }

  lemma MigratingAnswers(name: string, application: Id, defer: bool, reports: Reports, a: State, s: State, rolled: State, status: Status,
                         failed: bool, message: string, now: int)
    requires Begun(reports, a, s) && RolledFrom(s, rolled) && !Conflicting(a.app.spec, a.status) && a.app.spec.timeout > 0
    requires status == Tracked(a.app.spec, a.status.(generation := a.app.generation), now) && !MigrationDone(a.app.spec, a.status)
    requires var ends := reports.ends(MigrationOf(name, a.app.spec).name);
             !ends.Succeeded? && failed == ends.Failed? && message == if failed then reports.says(MigrationOf(name, a.app.spec).name) else ""
    ensures Answers(name, application, defer, reports, a, Migrating(application, reports, rolled, RouteRead(a), status, failed, message, now), now)
  {
    hide Available, OnRecord, Back, Calmed, HeldRoute, Beside, RolledFrom;
    RolledShape(s, rolled);
    var b := Migrating(application, reports, rolled, RouteRead(a), status, failed, message, now);
    HeldBack(application, reports, a, rolled, status, Holds(a.app, status), Unrouted(RouteRead(a)), b.status, b);
    RolledBeside(reports, a, s, rolled, b);
  }

  /** Only the record of the active release matters to whether it is available. */
  lemma SameRecord(application: Id, objects: map<Key, Object>, x: Status, y: Status, route: Route)
    requires x.active == y.active && x.backend == y.backend && x.port == y.port
    ensures Available(application, objects, x, route) <==> Available(application, objects, y, route)
    ensures Chosen(x, route) == Chosen(y, route)
  {}

  lemma RollingOutBack(name: string, application: Id, reports: Reports, a: State, s: State, rolled: State, status: Status,
                       ready: int, failed: bool, message: string, now: int)
    requires Begun(reports, a, s) && RolledFrom(s, rolled)
    requires status.active == a.status.active && status.backend == a.status.backend && status.port == a.status.port
    ensures var b := RollingOut(name, application, reports, rolled, RouteRead(a), status, ready, failed, message, now);
            var hold := Holds(a.app, status);
            var missing := hold && !OnRecord(application, a, b);
            Back(application, a, b, hold, missing, Idle(name, a.app.spec, a.app.spec.hostname))
            && (missing <==> hold && !Available(application, rolled.objects, status, RouteRead(a)))
  {
    hide Available, Back, Calmed, Chosen, OnRecord, RolledFrom;
    RolledShape(s, rolled);
    var b := RollingOut(name, application, reports, rolled, RouteRead(a), status, ready, failed, message, now);
    SameRecord(application, rolled.objects, status, Progress(a.app, status, ready, failed, message, now), RouteRead(a));
    HeldBack(application, reports, a, rolled, status, Holds(a.app, status), Idle(name, a.app.spec, a.app.spec.hostname), b.status, b);
  }

  lemma RollingOutWaits(name: string, application: Id, reports: Reports, a: State, b: State, spec: Spec, st: Status, held: bool, missing: bool, late: bool,
                        ready: int, failed: bool, message: string, now: int)
    requires spec == a.app.spec && Back(application, a, b, held, missing, Idle(name, spec, spec.hostname))
    requires st.condition == a.status.condition && st.ready == a.status.ready && st.url == a.status.url && (late <==> TimedOut(spec, st, now))
    requires var told := Progress(a.app, st, ready, failed, message, now);
             b.status == OrMissing(a.app, told.(backend := b.status.backend, port := b.status.port), !missing, now)
    requires var l := LastFailure(name, spec, reports, |spec.processes|);
             failed == l.Some? && message == (if failed then l.value else "") && ready == Total(name, spec, reports, |spec.processes|)
    ensures Waits(name, application, reports, a, b, held, missing, late, now)
  {
    hide Back, LastFailure, Total, TimedOut;
    var i := FailureFound(name, spec, reports, |spec.processes|);
  }

  lemma RollingOutAnswers(name: string, application: Id, defer: bool, reports: Reports, a: State, s: State, rolled: State, status: Status,
                          ready: int, failed: bool, message: string, now: int)
    requires Begun(reports, a, s) && RolledFrom(s, rolled) && !Conflicting(a.app.spec, a.status) && a.app.spec.timeout > 0
    requires Unhindered(name, a.app.spec, a.status, reports) && !AllReady(name, a.app.spec, reports)
    requires status == PastMigration(a.app.spec, Tracked(a.app.spec, a.status.(generation := a.app.generation), now))
    requires var l := LastFailure(name, a.app.spec, reports, |a.app.spec.processes|);
             failed == l.Some? && message == (if failed then l.value else "") && ready == Total(name, a.app.spec, reports, |a.app.spec.processes|)
    ensures Answers(name, application, defer, reports, a, RollingOut(name, application, reports, rolled, RouteRead(a), status, ready, failed, message, now), now)
  {
    hide Available, OnRecord, Back, Calmed, HeldRoute, LastFailure, Total, Waits, FailsLast, Beside, RolledFrom;
    RolledShape(s, rolled);
    var b := RollingOut(name, application, reports, rolled, RouteRead(a), status, ready, failed, message, now);
    var held := Holds(a.app, status);
    var missing := held && !Available(application, rolled.objects, status, RouteRead(a));
    SameRecord(application, rolled.objects, status, Progress(a.app, status, ready, failed, message, now), RouteRead(a));
    RollingOutBack(name, application, reports, a, s, rolled, status, ready, failed, message, now);
    RollingOutWaits(name, application, reports, a, b, a.app.spec, status, held, missing, TimedOut(a.app.spec, status, now), ready, failed, message, now);
    RolledBeside(reports, a, s, rolled, b);
    var p :| p in a.app.spec.processes && !ReportsReady(name, a.app.spec, reports, p);
    assert Unready(name, a.app.spec, reports, p);
  }

  lemma RequestedTidies(application: Id, defer: bool, reports: Reports, a: State, s: State)
    requires Beside(a, s) && s.app == a.app
    ensures Tidied(application, defer, a, Cleaned(application, s, defer, reports))
  {
    var d := Doomed(application, s, true, AllKinds());
    forall k | k in s.objects ensures k in d <==> s.objects[k].labels.application == application && s.objects[k].labels.release != s.app.spec.release {
      EveryKind(k.kind);
    }
  }

  /** Superseded releases are cleaned up if the current one had all the traffic before, and otherwise left alone. */
  lemma FinishedTidies(name: string, application: Id, defer: bool, reports: Reports, a: State, s: State, rolled: State, status: Status, serving: bool, now: int)
    requires Begun(reports, a, s) && RolledFrom(s, rolled)
    ensures var b := Finished(name, application, defer, reports, rolled, RouteRead(a), status, serving, now);
            b.app == a.app && b.policy == Some(a.app.spec.egress) && if serving then Tidied(application, defer, a, b) else Beside(a, b)
  {
    hide Calmed, Beside, RolledFrom, Tidied, Doomed;
    RolledShape(s, rolled);
    var total := Total(name, rolled.app.spec, reports, |rolled.app.spec.processes|);
    var p := Promoted(name, rolled, reports, RouteRead(a).hostname, status, total, now);
    RolledBeside(reports, a, s, rolled, p);
    RequestedTidies(application, defer, reports, a, p);
  }

  /** A release that is ready is live; a condition it had is kept. */
  lemma FinishedAnswers(name: string, application: Id, defer: bool, reports: Reports, a: State, s: State, rolled: State, status: Status, serving: bool, now: int)
    requires Begun(reports, a, s) && RolledFrom(s, rolled) && !Conflicting(a.app.spec, a.status)
    requires Unhindered(name, a.app.spec, a.status, reports) && AllReady(name, a.app.spec, reports)
    requires status == PastMigration(a.app.spec, Tracked(a.app.spec, a.status.(generation := a.app.generation), now))
    requires Live(name, application, reports, Finished(name, application, defer, reports, rolled, RouteRead(a), status, serving, now))
    requires serving <==> AlreadyServing(name, a.app.spec, a.status, a.route.Some?, RouteRead(a))
    ensures Answers(name, application, defer, reports, a, Finished(name, application, defer, reports, rolled, RouteRead(a), status, serving, now), now)
  {
    hide Available, OnRecord, Back, Calmed, Total, Waits, AllDesired, Doomed, InService, Tidied, Beside, RolledFrom;
    RolledShape(s, rolled);
    FinishedTidies(name, application, defer, reports, a, s, rolled, status, serving, now);
    LiveInService(name, application, reports, Finished(name, application, defer, reports, rolled, RouteRead(a), status, serving, now));
    forall p | p in a.app.spec.processes ensures !Unready(name, a.app.spec, reports, p) {
      assert ReportsReady(name, a.app.spec, reports, p);
    }
  }

  /** Whatever a reconciliation without conflict came to. */
  lemma AdvanceAnswers(name: string, application: Id, defer: bool, reports: Reports, a: State, s: State, rolled: State, status: Status, serving: bool, b: State, now: int)
    requires Begun(reports, a, s) && RolledFrom(s, rolled) && !Conflicting(a.app.spec, a.status) && a.app.spec.timeout > 0
    requires status == Tracked(a.app.spec, a.status.(generation := a.app.generation), now)
    requires !Unhindered(name, a.app.spec, a.status, reports) ==>
               var k := MigrationOf(name, a.app.spec).name;
               var failed := reports.ends(k).Failed?;
               b == Migrating(application, reports, rolled, RouteRead(a), status, failed, if failed then reports.says(k) else "", now)
    requires Unhindered(name, a.app.spec, a.status, reports) && !AllReady(name, a.app.spec, reports) ==>
               var l := LastFailure(name, a.app.spec, reports, |a.app.spec.processes|);
               b == RollingOut(name, application, reports, rolled, RouteRead(a), PastMigration(a.app.spec, status),
                               Total(name, a.app.spec, reports, |a.app.spec.processes|), l.Some?, if l.Some? then l.value else "", now)
    requires Unhindered(name, a.app.spec, a.status, reports) && AllReady(name, a.app.spec, reports) ==>
               && Live(name, application, reports, b)
               && b == Finished(name, application, defer, reports, rolled, RouteRead(a), PastMigration(a.app.spec, status), serving, now)
    requires serving <==> AlreadyServing(name, a.app.spec, a.status, a.route.Some?, RouteRead(a))
    ensures Answers(name, application, defer, reports, a, b, now)
  {
    hide Migrating, RollingOut, Finished, Live, AllReady, LastFailure, Total, Answers, Begun, RolledFrom;
    var k := MigrationOf(name, a.app.spec).name;
    var l := LastFailure(name, a.app.spec, reports, |a.app.spec.processes|);
    if !Unhindered(name, a.app.spec, a.status, reports) {
      var failed := reports.ends(k).Failed?;
      MigratingAnswers(name, application, defer, reports, a, s, rolled, status, failed, if failed then reports.says(k) else "", now);
    } else if !AllReady(name, a.app.spec, reports) {
      RollingOutAnswers(name, application, defer, reports, a, s, rolled, PastMigration(a.app.spec, status),
                        Total(name, a.app.spec, reports, |a.app.spec.processes|), l.Some?, if l.Some? then l.value else "", now);
    } else {
      FinishedAnswers(name, application, defer, reports, a, s, rolled, PastMigration(a.app.spec, status), serving, now);
    }
  }

  // ---------------------------------------------------------------- tear-downs

  /** The status while something is still to go, and once everything has gone. */
  function StillThere(app: App, status: Status, phase: Phase, reason: Reason, now: int): Status {
    status.(generation := app.generation, phase := phase, condition := Some(SetCondition(status.condition, false, reason, "", app.generation, now)))
  }

  function Halted(app: App, status: Status, now: int): Status {
    status.(
      generation := app.generation, phase := Phase.Suspended, url := None, ready := 0, backend := None, port := 0,
      candidate := None, fingerprint := None, started := None,
      condition := Some(SetCondition(status.condition, false, ComputeSuspended, "", app.generation, now)))
  }

  function Removed(app: App, status: Status, now: int): Status {
    var purged := app.lifecycle.Deleted?;
    status.(
      generation := app.generation, phase := if purged then Phase.Deleted else Phase.Retaining,
      url := None, ready := 0, active := None, backend := None, port := 0, candidate := None, migrated := None, fingerprint := None, started := None,
      condition := Some(SetCondition(status.condition, false, if purged then RuntimePurged else RuntimeDeleted, "", app.generation, now)))
  }

  /** All workloads of the application were asked to go: they are gone, or marked if deletions are deferred; all others stay. */
  ghost predicate Emptied(application: Id, defer: bool, a: State, b: State) {
    && (forall k :: k in b.objects <==> k in a.objects && (defer || a.objects[k].labels.application != application))
    && (forall k | k in b.objects :: SameButReport(a.objects[k], b.objects[k]))
    && (forall k | OnObject(k) in b.pending :: OnObject(k) in a.pending || (defer && k in a.objects && a.objects[k].labels.application == application))
    && (defer ==> forall k | k in a.objects && a.objects[k].labels.application == application :: OnObject(k) in b.pending)
    && a.pending <= b.pending
  }

  ghost predicate AnyLeft(application: Id, s: State) {
    exists k :: k in s.objects && s.objects[k].labels.application == application
  }

  /** What a calm step of a suspension leaves: first the route goes, then the workloads, and then the record of what served,
      but never that of the active release and its migration. */
  ghost predicate Suspends(application: Id, defer: bool, a: State, b: State, now: int) {
    var before, after := a.status, b.status;
    var told := before.(generation := a.app.generation, phase := after.phase, condition := after.condition);
    && b.app == a.app && b.policy == a.policy
    && after.condition.Some? && Stamped(before.condition, after.condition.value, now)
    && if a.route.Some? then
         && b.route == (if defer then a.route else None) && b.objects.Keys == a.objects.Keys
         && b.pending == a.pending + (if defer then {OnRoute} else {})
         && after == told.(url := None) && after.phase == Phase.Suspending && Says(after.condition, false, TrafficSuspended, "", a.app.generation)
       else
         && b.route.None? && Emptied(application, defer, a, b)
         && if defer && AnyLeft(application, a) then
              after == told && after.phase == Phase.Suspending && Says(after.condition, false, ComputeSuspensionPending, "", a.app.generation)
            else
              && after == told.(url := None, ready := 0, backend := None, port := 0, candidate := None, fingerprint := None, started := None)
              && after.phase == Phase.Suspended && Says(after.condition, false, ComputeSuspended, "", a.app.generation)
  }

  /** What a calm step of a deletion leaves: route, workloads and policy go in this order, and at last the record of releases. */
  ghost predicate Removes(application: Id, defer: bool, a: State, b: State, now: int) {
    var before, after := a.status, b.status;
    var told := before.(generation := a.app.generation, phase := after.phase, condition := after.condition);
    && b.app == a.app
    && if a.route.Some? then
         && b.route == (if defer then a.route else None) && b.objects.Keys == a.objects.Keys && b.policy == a.policy
         && b.pending == a.pending + (if defer then {OnRoute} else {})
         && after == told && after.phase == Phase.DeletingRoute && after.condition == before.condition
       else
         && b.route.None? && Emptied(application, defer, a, b)
         && after.condition.Some? && Stamped(before.condition, after.condition.value, now)
         && if defer && AnyLeft(application, a) then
              && b.policy == a.policy && (OnPolicy in b.pending ==> OnPolicy in a.pending)
              && after == told && after.phase == Phase.DeletingWorkloads && Says(after.condition, false, RuntimeDeletionPending, "", a.app.generation)
            else if defer && a.policy.Some? then
              && b.policy == a.policy && OnPolicy in b.pending
              && after == told && after.phase == Phase.DeletingPolicy && Says(after.condition, false, RuntimeDeletionPending, "", a.app.generation)
            else
              && b.policy.None?
              && after == told.(url := None, ready := 0, active := None, backend := None, port := 0, candidate := None, migrated := None,
                                fingerprint := None, started := None)
              && after.phase == (if a.app.lifecycle == Lifecycle.Deleted then Phase.Deleted else Phase.Retaining)
              && Says(after.condition, false, if a.app.lifecycle == Lifecycle.Deleted then RuntimePurged else RuntimeDeleted, "", a.app.generation)
  }

  lemma PolicyAfter(s: State, was: Status, defer: bool, reports: Reports, status: Status)
    ensures WithoutPolicy(s.(status := was), defer, reports).(status := status) == WithoutPolicy(s, defer, reports).(status := status)
  {}

  lemma RequestedEmpties(application: Id, defer: bool, reports: Reports, a: State)
    ensures var d := Doomed(application, a, false, AllKinds());
            Emptied(application, defer, a, Requested(a, defer, reports, d)) && (d != {} <==> AnyLeft(application, a))
  {
    var d := Doomed(application, a, false, AllKinds());
    forall k | k in a.objects ensures k in d <==> a.objects[k].labels.application == application {
      EveryKind(k.kind);
    }
    if AnyLeft(application, a) {
      var k :| k in a.objects && a.objects[k].labels.application == application;
      assert k in d;
    }
  }

  lemma RouteSuspends(application: Id, defer: bool, reports: Reports, a: State, now: int)
    requires a.route.Some?
    ensures Suspends(application, defer, a,
              WithoutRoute(a, defer, reports).(status := StillThere(a.app, a.status, Phase.Suspending, TrafficSuspended, now).(url := None)), now)
    ensures Removes(application, defer, a,
              WithoutRoute(a, defer, reports).(status := a.status.(generation := a.app.generation, phase := Phase.DeletingRoute)), now)
  {}

  lemma WorkloadsSuspend(application: Id, defer: bool, reports: Reports, a: State, now: int)
    requires a.route.None?
    ensures var d := Doomed(application, a, false, AllKinds());
            var r := Requested(a, defer, reports, d);
            if defer && d != {} then
              && Suspends(application, defer, a, r.(status := StillThere(a.app, a.status, Phase.Suspending, ComputeSuspensionPending, now)), now)
              && Removes(application, defer, a, r.(status := StillThere(a.app, a.status, Phase.DeletingWorkloads, RuntimeDeletionPending, now)), now)
            else Suspends(application, defer, a, r.(status := Halted(a.app, a.status, now)), now)
  {
    RequestedEmpties(application, defer, reports, a);
    hide Doomed, Calmed, AnyLeft;
  }

  lemma PolicyRemoves(application: Id, defer: bool, reports: Reports, a: State, now: int)
    requires a.route.None? && !(defer && Doomed(application, a, false, AllKinds()) != {})
    ensures var r := WithoutPolicy(Requested(a, defer, reports, Doomed(application, a, false, AllKinds())), defer, reports);
            Removes(application, defer, a, r.(status :=
              if defer && a.policy.Some? then StillThere(a.app, a.status, Phase.DeletingPolicy, RuntimeDeletionPending, now)
              else Removed(a.app, a.status, now)), now)
  {
    hide Doomed, AnyLeft, Emptied, Requested;
    RequestedEmpties(application, defer, reports, a);
    var r := Requested(a, defer, reports, Doomed(application, a, false, AllKinds()));
    EmptiedFurther(application, defer, reports, a, r,
      if defer && a.policy.Some? then StillThere(a.app, a.status, Phase.DeletingPolicy, RuntimeDeletionPending, now) else Removed(a.app, a.status, now));
    assert r == a.(objects := r.objects, pending := r.pending) by {
      RequestedShape(a, defer, reports, Doomed(application, a, false, AllKinds()));
    }
    hide Calmed;
  }

  lemma RequestedShape(s: State, defer: bool, reports: Reports, keys: set<Key>)
    ensures var r := Requested(s, defer, reports, keys); r == s.(objects := r.objects, pending := r.pending)
  {}

  lemma EmptiedFurther(application: Id, defer: bool, reports: Reports, a: State, r: State, status: Status)
    requires Emptied(application, defer, a, r)
    ensures Emptied(application, defer, a, WithoutPolicy(r, defer, reports).(status := status))
  {}
}
