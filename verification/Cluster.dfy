/** The cluster the operator drives: labelled objects, one route, one network policy and the stored application. Between
    any two client calls workloads report, deferred deletions complete, and the next call may fail or never be made. */
module Cluster {
  import opened Int64

  type Id = string

  // ---------------------------------------------------------------- the application

  datatype Process = Process(name: string, port: int, minReplicas: int, maxReplicas: int)

  /** All that the release fingerprint covers. Processes are listed in name order, each name once. */
  datatype Spec = Spec(
    release: Id, processes: seq<Process>, route: string, hostname: string, migration: bool,
    timeout: int, egress: string, image: string)

  datatype Lifecycle = Active | Suspending | Suspended | Resuming | DeletingRuntime | Retaining | Deleted

  datatype App = App(spec: Spec, lifecycle: Lifecycle, generation: int)

  datatype Phase =
    | Unset | Ready | Degraded | Deploying | Suspending | Suspended
    | DeletingRoute | DeletingWorkloads | DeletingPolicy | Retaining | Deleted

  datatype Reason =
    | ReleaseIdentityConflict | PreviousReleaseUnavailable | MigrationFailed | MigrationRunning | RolloutTimeout | RolloutFailed
    | RolloutComplete | Progressing | TrafficSuspended | ComputeSuspensionPending | ComputeSuspended
    | RuntimeDeletionPending | RuntimePurged | RuntimeDeleted

  datatype Condition = Condition(ready: bool, reason: Reason, message: string, generation: int, since: int)

  datatype Status = Status(
    generation: int, phase: Phase, active: Option<Id>, backend: Option<Name>, port: int,
    candidate: Option<Id>, fingerprint: Option<Spec>, migrated: Option<Id>,
    url: Option<string>, ready: int, started: Option<int>, condition: Option<Condition>)

  // ---------------------------------------------------------------- specs

  predicate Distinct(processes: seq<Process>) {
    forall i, j | 0 <= i < j < |processes| :: processes[i].name != processes[j].name
  }

  predicate ValidProcess(p: Process) {
    0 <= p.minReplicas <= p.maxReplicas <= 1000 && (p.maxReplicas > p.minReplicas ==> p.minReplicas > 0) && 0 <= p.port <= 65535
  }

  predicate ValidSpec(spec: Spec) {
    && 1 <= |spec.processes| <= 32 && Distinct(spec.processes)
    && (forall p | p in spec.processes :: ValidProcess(p))
    && (exists p | p in spec.processes :: p.name == spec.route && p.port > 0 && p.minReplicas >= 1)
    && 0 < spec.timeout <= 86400
  }

  // ---------------------------------------------------------------- objects

  datatype Name = Name(app: string, component: string, release: Id)

  datatype Labels = Labels(application: Id, release: Id)

  datatype Kind = DeploymentKind | ServiceKind | HpaKind | JobKind

  datatype Key = Key(kind: Kind, name: Name)

  datatype Report = Report(ready: int, failed: bool, message: string)

  datatype Outcome = Pending | Succeeded | Failed

  datatype Object =
    | Deployment(labels: Labels, template: Spec, report: Report)
    | Service(labels: Labels, port: int, process: string)
    | Hpa(labels: Labels, minReplicas: int, maxReplicas: int)
    | Job(labels: Labels, template: Spec, outcome: Outcome, message: string)

  datatype Route = Route(backend: Option<Name>, port: int, enabled: bool, hostname: string)

  datatype Target = OnObject(key: Key) | OnRoute | OnPolicy

  /** One moment of the cluster, with the releases promoted and the migrations seen to succeed up to then. */
  datatype State = State(
    app: App, status: Status, objects: map<Key, Object>, route: Option<Route>, policy: Option<string>, pending: set<Target>,
    promoted: set<Id>, migrated: set<Id>)

  datatype Action =
    | Begins | Reads | Upserts(key: Key) | Deletes(key: Key) | Routes | Unroutes | Polices | Reveals(phase: Phase)
    | Stores | Promotes(spec: Spec) | Notices(release: Id)

  /** What was done, the state it left, in which reconciliation; the release that traffic was moved to by a route written ahead
      of the record, if the status still says otherwise; and the spec this reconciliation has promoted, if any. */
  datatype Moment = Moment(action: Action, state: State, turn: nat, ahead: Option<Id>, promoting: Option<Spec>)

  /** Which application is being operated, and what, if anything, its owner promises: one fixed spec for each release
      (the registry), and on top of that never to suspend or delete. */
  datatype Context = Context(app: string, application: Id, registry: Option<Id -> Spec>, alwaysActive: bool)
  {
    predicate Steady() {
      registry.Some? && alwaysActive
    }

    predicate Kept(a: App) {
      (registry.Some? ==> a.spec == registry.value(a.spec.release)) && (Steady() ==> a.lifecycle == Lifecycle.Active)
    }
  }

  // ---------------------------------------------------------------- what happens between calls

  /** Does the next call go through, what do workloads report, which deferred deletions complete. */
  datatype Weather = Weather(ok: bool, reports: map<Name, Report>, outcomes: map<Name, (Outcome, string)>, completes: set<Target>)

  function Reported(o: Object, name: Name, w: Weather): Object {
    if o.Deployment? && name in w.reports then o.(report := w.reports[name])
    else if o.Job? && name in w.outcomes then o.(outcome := w.outcomes[name].0, message := w.outcomes[name].1)
    else o
  }

  predicate SameButReport(a: Object, b: Object) {
    match a
    case Deployment(labels, template, _) => b.Deployment? && b.labels == labels && b.template == template
    case Job(labels, template, _, _) => b.Job? && b.labels == labels && b.template == template
    case _ => a == b
  }

  /** The deployment of one process exists, has not failed, and reports enough replicas. */
  predicate IsReady(objects: map<Key, Object>, app: string, spec: Spec, p: Process) {
    var k := Key(DeploymentKind, Name(app, p.name, spec.release));
    k in objects && objects[k].Deployment? && !objects[k].report.failed && objects[k].report.ready >= p.minReplicas
  }

  /** Reports change, and only objects whose deletion was requested disappear. */
  ghost predicate Drift(a: State, b: State) {
    && b == a.(objects := b.objects, route := b.route, policy := b.policy, pending := b.pending)
    && (forall k | k in b.objects :: k in a.objects && SameButReport(a.objects[k], b.objects[k]))
    && (forall k | k in a.objects && k !in b.objects :: OnObject(k) in a.pending)
    && (b.route == a.route || (b.route.None? && OnRoute in a.pending))
    && (b.policy == a.policy || (b.policy.None? && OnPolicy in a.pending))
    && b.pending <= a.pending
  }

  /** What every deployment always reports, how every job always ends, and what it says then. */
  datatype Reports = Reports(of: Name -> Report, ends: Name -> Outcome, says: Name -> string)

  function Settles(o: Object, name: Name, reports: Reports): Object {
    match o
    case Deployment(_, _, _) => o.(report := reports.of(name))
    case Job(_, _, _, _) => o.(outcome := reports.ends(name), message := reports.says(name))
    case _ => o
  }

  /** In calm weather every workload reports what it always reports. */
  function Calmed(objects: map<Key, Object>, reports: Reports): map<Key, Object> {
    map k | k in objects :: Settles(objects[k], k.name, reports)
  }

  /** An upsert keeps what the cluster itself reports. */
  function Merged(objects: map<Key, Object>, k: Key, v: Object): Object {
    if k !in objects then v
    else if v.Deployment? && objects[k].Deployment? then v.(report := objects[k].report)
    else if v.Job? && objects[k].Job? then v.(outcome := objects[k].outcome, message := objects[k].message)
    else v
  }

  // ---------------------------------------------------------------- what must hold at every moment

  predicate OfApp(ctx: Context, o: Object) {
    o.labels.application == ctx.application
  }

  /** The application's own objects carry its labels and the release in their name. */
  ghost predicate Labelled(ctx: Context, objects: map<Key, Object>) {
    forall k | k in objects && k.name.app == ctx.app :: objects[k].labels == Labels(ctx.application, k.name.release)
  }

  /** The deployment of the same name is there too. */
  predicate Manned(ctx: Context, objects: map<Key, Object>, backend: Name) {
    backend.app == ctx.app && Key(DeploymentKind, backend) in objects && objects[Key(DeploymentKind, backend)].Deployment?
  }

  /** The service exists, belongs to the application, and its release was once fully ready; under the owner's promise its
      deployment exists as well. */
  predicate Serves(ctx: Context, objects: map<Key, Object>, promoted: set<Id>, backend: Name) {
    var k := Key(ServiceKind, backend);
    && k in objects && objects[k].Service? && OfApp(ctx, objects[k]) && objects[k].labels.release in promoted
    && (ctx.Steady() ==> Manned(ctx, objects, backend))
  }

  predicate RouteServes(ctx: Context, objects: map<Key, Object>, promoted: set<Id>, route: Option<Route>) {
    route.Some? && route.value.enabled ==> route.value.backend.Some? && Serves(ctx, objects, promoted, route.value.backend.value)
  }

  /** No workload of a release with a migration exists before that migration was seen to succeed. */
  ghost predicate Gated(objects: map<Key, Object>, migrated: set<Id>) {
    forall k | k in objects && objects[k].Deployment? && objects[k].template.migration :: objects[k].template.release in migrated
  }

  predicate Remembered(status: Status, promoted: set<Id>, migrated: set<Id>) {
    (status.active.Some? ==> status.active.value in promoted) && (status.migrated.Some? ==> status.migrated.value in migrated)
  }

  function PortOf(spec: Spec, component: string): int {
    PortIn(spec.processes, component)
  }

  function PortIn(processes: seq<Process>, component: string): int {
    if processes == [] then 0 else if processes[0].name == component then processes[0].port else PortIn(processes[1..], component)
  }

  /** With one spec per release, the name of a service determines its port and whether a migration gated it. */
  ghost predicate Ported(ctx: Context, objects: map<Key, Object>, migrated: set<Id>) {
    ctx.registry.Some? ==>
      forall k | k in objects && k.name.app == ctx.app && objects[k].Service? ::
        objects[k].port == PortOf(ctx.registry.value(k.name.release), k.name.component)
        && (ctx.registry.value(k.name.release).migration ==> k.name.release in migrated)
  }

  /** The recorded backend is an own service of the active release, on the recorded port, with its deployment. */
  predicate Backed(ctx: Context, objects: map<Key, Object>, status: Status) {
    && status.active.Some? && status.backend.Some? && status.port > 0 && status.backend.value.app == ctx.app
    && status.backend.value.release == status.active.value
    && var k := Key(ServiceKind, status.backend.value);
       && k in objects && objects[k].Service? && objects[k].port == status.port && objects[k].labels == Labels(ctx.application, status.active.value)
       && Manned(ctx, objects, status.backend.value)
  }

  /** Under the owner's promise, once a release is recorded as active there is traffic, now and always. */
  predicate Flowing(ctx: Context, objects: map<Key, Object>, status: Status, route: Option<Route>) {
    ctx.Steady() && status.active.Some? ==> route.Some? && route.value.enabled && Backed(ctx, objects, status)
  }

  ghost predicate Good(ctx: Context, s: State) {
    && s.pending == {}
    && Labelled(ctx, s.objects)
    && RouteServes(ctx, s.objects, s.promoted, s.route)
    && Gated(s.objects, s.migrated)
    && Remembered(s.status, s.promoted, s.migrated)
    && Ported(ctx, s.objects, s.migrated)
    && Flowing(ctx, s.objects, s.status, s.route)
    && ctx.Kept(s.app)
  }

  lemma DriftGood(ctx: Context, a: State, b: State)
    requires Good(ctx, a) && Drift(a, b)
    ensures Good(ctx, b) && b.objects.Keys == a.objects.Keys && b.route == a.route && b.policy == a.policy
  {
    forall k | k in a.objects ensures k in b.objects && SameButReport(a.objects[k], b.objects[k]) {}
  }

  // ---------------------------------------------------------------- which calls keep it

  /** An upsert of an own object. */
  ghost predicate Proper(ctx: Context, s: State, k: Key, v: Object) {
    && k.name.app == ctx.app && v.labels == Labels(ctx.application, k.name.release)
    && (v.Deployment? && v.template.migration ==> v.template.release in s.migrated)
    && (v.Service? <==> k.kind.ServiceKind?) && (k.kind.DeploymentKind? ==> v.Deployment?)
    && (ctx.registry.Some? && v.Service? ==>
          v.port == PortOf(ctx.registry.value(k.name.release), k.name.component)
          && (ctx.registry.value(k.name.release).migration ==> k.name.release in s.migrated))
  }

  lemma UpsertGood(ctx: Context, s: State, k: Key, v: Object)
    requires Good(ctx, s) && Proper(ctx, s, k, v)
    ensures Good(ctx, s.(objects := s.objects[k := Merged(s.objects, k, v)]))
  {}

  /** The object is not the service of this backend; nor, under the owner's promise, its deployment. */
  predicate Apart(ctx: Context, k: Key, backend: Option<Name>) {
    backend.Some? ==> k != Key(ServiceKind, backend.value) && (ctx.Steady() ==> k != Key(DeploymentKind, backend.value))
  }

  predicate Removable(ctx: Context, s: State, k: Key) {
    && (s.route.Some? && s.route.value.enabled ==> Apart(ctx, k, s.route.value.backend))
    && (ctx.Steady() && s.status.active.Some? ==> Apart(ctx, k, s.status.backend))
  }

  lemma DeleteGood(ctx: Context, s: State, k: Key)
    requires Good(ctx, s) && Removable(ctx, s, k)
    ensures Good(ctx, s.(objects := s.objects - {k}))
  {}

  /** A reconciliation that has promoted the stored spec routes to that; any other routes to the recorded active release or
      switches traffic off, under the owner's promise only if none is recorded. */
  predicate Routable(ctx: Context, s: State, promoting: Option<Spec>, route: Route) {
    && (route.enabled ==>
          && route.backend.Some? && Serves(ctx, s.objects, s.promoted, route.backend.value)
          && Carrier(s.(route := Some(route))) == if promoting.Some? then Some(s.app.spec.release) else s.status.active)
    && (promoting.Some? ==> route.enabled && promoting.value == s.app.spec)
    && (ctx.Steady() && s.status.active.Some? ==> route.enabled)
  }

  /** A status names the release that traffic is on. */
  predicate Recordable(ctx: Context, s: State, status: Status) {
    && Remembered(status, s.promoted, s.migrated) && Flowing(ctx, s.objects, status, s.route)
    && (s.route.Some? && s.route.value.enabled ==> Carrier(s) == status.active)
  }

  // ---------------------------------------------------------------- where traffic is

  /** The release of the service that an enabled route leads to. */
  function Carrier(s: State): Option<Id> {
    if s.route.Some? && s.route.value.enabled && s.route.value.backend.Some? && Key(ServiceKind, s.route.value.backend.value) in s.objects then
      Some(s.objects[Key(ServiceKind, s.route.value.backend.value)].labels.release)
    else None
  }

  /** A route write moves traffic ahead of the record if the status names another release; only another route write or a
      status write ends that. */
  function Ahead(before: Option<Id>, action: Action, s: State): Option<Id> {
    match action
    case Routes => if Carrier(s) == s.status.active then None else Carrier(s)
    case Unroutes => None
    case Reveals(_) => None
    case _ => before
  }

  /** Traffic is on the release written ahead of the record, or else on the recorded one. */
  predicate Aimed(s: State, ahead: Option<Id>) {
    && (s.route.Some? && s.route.value.enabled ==> Carrier(s) == if ahead.Some? then ahead else s.status.active)
    && (ahead.Some? ==> s.route.Some? && s.route.value.enabled && ahead != s.status.active)
  }

  lemma DriftAimed(ctx: Context, a: State, b: State, ahead: Option<Id>)
    requires Good(ctx, a) && Drift(a, b)
    ensures Carrier(b) == Carrier(a) && (Aimed(a, ahead) ==> Aimed(b, ahead))
  {
    hide Labelled, Gated, Remembered, Ported, Flowing;
    DriftGood(ctx, a, b);
    if a.route.Some? && a.route.value.backend.Some? && Key(ServiceKind, a.route.value.backend.value) in a.objects {
      var k := Key(ServiceKind, a.route.value.backend.value);
      assert SameButReport(a.objects[k], b.objects[k]);
    }
  }

  /** What a call keeps by itself. */
  lemma DriftKeeps(ctx: Context, a: State, b: State, ahead: Option<Id>)
    requires Good(ctx, a) && Aimed(a, ahead) && Drift(a, b)
    ensures Good(ctx, b) && Aimed(b, ahead) && b.route == a.route && a.pending == {} && b.pending == {}
  {
    DriftGood(ctx, a, b);
    DriftAimed(ctx, a, b, ahead);
    hide Labelled, RouteServes, Gated, Remembered, Ported, Flowing, Drift, Aimed;
  }

  lemma UpsertAimed(ctx: Context, s: State, k: Key, v: Object, ahead: Option<Id>)
    requires Good(ctx, s) && Proper(ctx, s, k, v) && Aimed(s, ahead)
    ensures Aimed(s.(objects := s.objects[k := Merged(s.objects, k, v)]), ahead)
  {
    hide Gated, Remembered, Ported, Flowing;
  }

  lemma DeleteAimed(ctx: Context, s: State, k: Key, ahead: Option<Id>)
    requires Removable(ctx, s, k) && Aimed(s, ahead)
    ensures Aimed(s.(objects := s.objects - {k}), ahead)
  {}

  // ---------------------------------------------------------------- what the record must show

  predicate Deleting(l: Lifecycle) {
    l.DeletingRuntime? || l.Retaining? || l.Deleted?
  }

  predicate TearingDown(l: Lifecycle) {
    Deleting(l) || l.Suspending? || l.Suspended?
  }

  /** Neither traffic nor any object of the application is left. */
  ghost predicate Gone(ctx: Context, s: State) {
    s.route.None? && forall k | k in s.objects :: !OfApp(ctx, s.objects[k])
  }

  ghost predicate Announces(ctx: Context, s: State, phase: Phase) {
    && (phase.Suspended? || phase.Retaining? || phase.Deleted? ==> Gone(ctx, s))
    && (phase.Retaining? || phase.Deleted? ==> s.policy.None?)
  }

  predicate SucceededIn(objects: map<Key, Object>, k: Key) {
    k in objects && objects[k].Job? && objects[k].outcome.Succeeded?
  }

  function MigrationKey(ctx: Context, release: Id): Key {
    Key(JobKind, Name(ctx.app, "migration", release))
  }

  /** A tear-down deletes workloads only after the route is gone; finished phases are announced only when nothing is left;
      a migration is submitted only while its success is not on record, and noticed only when its job has succeeded. */
  ghost predicate Truthful(ctx: Context, m: Moment) {
    && (m.action.Deletes? && TearingDown(m.state.app.lifecycle) ==> m.state.route.None?)
    && (m.action.Reveals? ==> Announces(ctx, m.state, m.action.phase))
    && (m.action.Upserts? && m.action.key.kind.JobKind? ==> m.state.status.migrated != Some(m.action.key.name.release))
    && (m.action.Notices? ==> SucceededIn(m.state.objects, MigrationKey(ctx, m.action.release)))
  }

  /** A route write sends traffic to the stored spec's release if this reconciliation has promoted that, and otherwise to the
      recorded active release if anywhere. */
  predicate Driven(m: Moment) {
    && (m.promoting.Some? ==> m.promoting.value == m.state.app.spec && Carrier(m.state) == Some(m.state.app.spec.release))
    && (m.promoting.None? && Enabled(m) ==> Activated(m) && Carrier(m.state) == m.state.status.active)
  }

  /** While deletions are immediate: the state is good, traffic is where route and record say, and a route write has a reason. */
  ghost predicate Sound(ctx: Context, m: Moment) {
    Good(ctx, m.state) && Aimed(m.state, m.ahead) && (m.action.Routes? ==> Driven(m))
  }

  /** A recorded migration stays recorded while the spec stays on its release and is not being deleted; under the owner's
      promise a recorded active release is only ever replaced by another. */
  predicate Follows(ctx: Context, a: State, b: State) {
    && (a.status.migrated == Some(b.app.spec.release) && !Deleting(b.app.lifecycle) ==> b.status.migrated == a.status.migrated)
    && (ctx.Steady() && a.status.active.Some? ==> b.status.active.Some?)
  }

  /** Which part of the state each action may change. */
  ghost predicate Changes(ctx: Context, a: State, m: Moment, immediate: bool) {
    && (!m.action.Reveals? ==> m.state.status == a.status)
    && (!m.action.Stores? ==> m.state.app == a.app)
    && m.state.promoted == a.promoted + (if m.action.Promotes? then {m.action.spec.release} else {})
    && m.state.migrated == a.migrated + (if m.action.Notices? then {m.action.release} else {})
    && (immediate && !m.action.Routes? && !m.action.Unroutes? ==> m.state.route == a.route)
    && (immediate && ctx.Steady() ==> !m.action.Unroutes?)
    && (forall k | k in a.objects && k !in m.state.objects :: OnObject(k) in a.pending || m.action == Deletes(k))
  }

  /** What a reconciliation has promoted is forgotten when the next one begins. */
  function Promoting(a: Moment, action: Action, turn: nat): Option<Spec> {
    if action.Promotes? then Some(action.spec) else if turn == a.turn then a.promoting else None
  }

  ghost predicate Next(ctx: Context, a: Moment, b: Moment, immediate: bool) {
    && Follows(ctx, a.state, b.state) && Changes(ctx, a.state, b, immediate) && a.turn <= b.turn
    && b.ahead == Ahead(a.ahead, b.action, b.state) && b.promoting == Promoting(a, b.action, b.turn)
  }

  ghost predicate ReadyAt(ctx: Context, m: Moment, turn: nat, spec: Spec, p: Process) {
    m.turn == turn && IsReady(m.state.objects, ctx.app, spec, p)
  }

  /** Before moment n, in the same reconciliation, the process was ready. */
  ghost predicate SawReady(ctx: Context, trace: seq<Moment>, n: nat, turn: nat, spec: Spec, p: Process)
    requires n <= |trace|
  {
    exists j :: 0 <= j < n && ReadyAt(ctx, trace[j], turn, spec, p)
  }

  ghost predicate SawAllReady(ctx: Context, trace: seq<Moment>, n: nat, turn: nat, spec: Spec)
    requires n <= |trace|
  {
    forall p | p in spec.processes :: SawReady(ctx, trace, n, turn, spec, p)
  }

  /** A promotion is of the stored, valid spec, each of whose processes was seen ready in the same reconciliation. */
  ghost predicate Vouched(ctx: Context, trace: seq<Moment>, k: nat)
    requires k < |trace| && trace[k].action.Promotes?
  {
    var spec := trace[k].action.spec;
    ValidSpec(spec) && trace[k].state.app.spec == spec && SawAllReady(ctx, trace, k, trace[k].turn, spec)
  }

  ghost predicate Opens(trace: seq<Moment>) {
    trace != [] ==>
      && trace[0].state.promoted == {} && trace[0].state.migrated == {} && trace[0].ahead.None? && trace[0].promoting.None?
      && !trace[0].action.Promotes?
  }

  ghost predicate History(ctx: Context, trace: seq<Moment>, immediate: bool) {
    && Opens(trace)
    && (forall i | 0 <= i < |trace| :: Truthful(ctx, trace[i]))
    && (forall i | 0 < i < |trace| :: Next(ctx, trace[i - 1], trace[i], immediate))
    && (forall i | 0 <= i < |trace| && trace[i].action.Promotes? :: Vouched(ctx, trace, i))
    && (immediate ==> forall i | 0 <= i < |trace| :: Sound(ctx, trace[i]))
  }

  lemma SawReadyGrows(ctx: Context, trace: seq<Moment>, more: seq<Moment>, n: nat, turn: nat, spec: Spec, p: Process)
    requires n <= |trace| && trace <= more && SawReady(ctx, trace, n, turn, spec, p)
    ensures SawReady(ctx, more, n, turn, spec, p) && SawReady(ctx, more, |more|, turn, spec, p)
  {
    hide ReadyAt;
    var j :| 0 <= j < n && ReadyAt(ctx, trace[j], turn, spec, p);
    assert ReadyAt(ctx, more[j], turn, spec, p);
  }

  lemma SawAllReadyGrows(ctx: Context, trace: seq<Moment>, more: seq<Moment>, n: nat, turn: nat, spec: Spec)
    requires n <= |trace| && trace <= more && SawAllReady(ctx, trace, n, turn, spec)
    ensures SawAllReady(ctx, more, n, turn, spec) && SawAllReady(ctx, more, |more|, turn, spec)
  {
    hide SawReady;
    forall p | p in spec.processes ensures SawReady(ctx, more, n, turn, spec, p) && SawReady(ctx, more, |more|, turn, spec, p) {
      SawReadyGrows(ctx, trace, more, n, turn, spec, p);
    }
  }

  lemma VouchedGrows(ctx: Context, trace: seq<Moment>, m: Moment, k: nat)
    requires k < |trace| && trace[k].action.Promotes? && Vouched(ctx, trace, k)
    ensures Vouched(ctx, trace + [m], k)
  {
    hide SawAllReady;
    SawAllReadyGrows(ctx, trace, trace + [m], k, trace[k].turn, trace[k].action.spec);
  }

  /** The new moment of a trace: it may follow, and a promotion is vouched for. */
  ghost predicate Continues(ctx: Context, trace: seq<Moment>, m: Moment, immediate: bool) {
    && Truthful(ctx, m) && (immediate ==> Sound(ctx, m))
    && (trace == [] ==> Opens([m]))
    && (trace != [] ==> Next(ctx, trace[|trace| - 1], m, immediate))
    && (m.action.Promotes? ==>
          ValidSpec(m.action.spec) && m.state.app.spec == m.action.spec && SawAllReady(ctx, trace, |trace|, m.turn, m.action.spec))
  }

  /** A call that writes neither route nor status, whether or not it went through, continues the record. */
  lemma CallContinues(ctx: Context, trace: seq<Moment>, mid: State, m: Moment, immediate: bool)
    requires trace != [] && Drift(trace[|trace| - 1].state, mid)
    requires m.state == mid.(objects := m.state.objects, policy := m.state.policy, pending := m.state.pending)
    requires m.turn >= trace[|trace| - 1].turn && m.ahead == trace[|trace| - 1].ahead && m.promoting == Promoting(trace[|trace| - 1], m.action, m.turn)
    requires m.action.Reads? || m.action.Upserts? || m.action.Deletes? || m.action.Polices?
    requires forall k | k in mid.objects && k !in m.state.objects :: m.action == Deletes(k)
    requires m.action.Deletes? && TearingDown(m.state.app.lifecycle) ==> trace[|trace| - 1].state.route.None?
    requires m.action.Upserts? && m.action.key.kind.JobKind? ==> mid.status.migrated != Some(m.action.key.name.release)
    requires immediate ==> trace[|trace| - 1].state.pending == {} && Good(ctx, m.state) && Aimed(m.state, m.ahead)
    ensures Continues(ctx, trace, m, immediate)
  {
    hide Good, Aimed, SawAllReady, ValidSpec;
  }

  /** So does a route write; the route is where it was or as written. */
  lemma RouteContinues(ctx: Context, trace: seq<Moment>, mid: State, m: Moment, immediate: bool)
    requires trace != [] && Drift(trace[|trace| - 1].state, mid)
    requires m.state == mid.(route := m.state.route, pending := m.state.pending)
    requires m.turn >= trace[|trace| - 1].turn && m.ahead == Ahead(trace[|trace| - 1].ahead, m.action, m.state)
    requires m.promoting == Promoting(trace[|trace| - 1], m.action, m.turn)
    requires m.action.Routes? || (m.action.Unroutes? && (immediate ==> !ctx.Steady()))
    requires immediate ==> Good(ctx, m.state) && Aimed(m.state, m.ahead)
    requires immediate && m.action.Routes? ==> Driven(m)
    ensures Continues(ctx, trace, m, immediate)
  {
    hide Good, Aimed, SawAllReady, ValidSpec, Ahead;
  }

  /** So does a status write. */
  lemma StatusContinues(ctx: Context, trace: seq<Moment>, mid: State, m: Moment, immediate: bool)
    requires trace != [] && Drift(trace[|trace| - 1].state, mid)
    requires m.state == mid.(status := m.state.status) && m.turn >= trace[|trace| - 1].turn && m.ahead == None
    requires m.promoting == Promoting(trace[|trace| - 1], m.action, m.turn)
    requires m.action.Reveals? && Announces(ctx, m.state, m.action.phase)
    requires Follows(ctx, trace[|trace| - 1].state, trace[|trace| - 1].state.(status := m.state.status))
    requires immediate ==> Good(ctx, m.state) && Aimed(m.state, m.ahead) && trace[|trace| - 1].state.pending == {}
    ensures Continues(ctx, trace, m, immediate)
  {
    hide Good, Aimed, SawAllReady, ValidSpec, Announces;
  }

  lemma HistoryGrows(ctx: Context, trace: seq<Moment>, immediate: bool, m: Moment)
    requires History(ctx, trace, immediate) && Continues(ctx, trace, m, immediate)
    ensures History(ctx, trace + [m], immediate)
  {
    hide Sound, Truthful, Next, Vouched;
    var more := trace + [m];
    forall i | 0 <= i < |more| && more[i].action.Promotes? ensures Vouched(ctx, more, i) {
      if i < |trace| {
        VouchedGrows(ctx, trace, m, i);
      } else {
        NewVouched(ctx, trace, m, immediate);
      }
    }
  }

  lemma NewVouched(ctx: Context, trace: seq<Moment>, m: Moment, immediate: bool)
    requires Continues(ctx, trace, m, immediate) && m.action.Promotes?
    ensures Vouched(ctx, trace + [m], |trace|)
  {
    hide SawAllReady, Sound, Truthful, Next;
    SawAllReadyGrows(ctx, trace, trace + [m], |trace|, m.turn, m.action.spec);
  }

  lemma DriftGone(ctx: Context, a: State, b: State)
    requires Gone(ctx, a) && Drift(a, b)
    ensures Gone(ctx, b)
  {
    forall k | k in b.objects ensures !OfApp(ctx, b.objects[k]) {
      assert SameButReport(a.objects[k], b.objects[k]);
    }
  }

  lemma DriftAnnounces(ctx: Context, a: State, b: State, phase: Phase)
    requires Announces(ctx, a, phase) && Drift(a, b)
    ensures Announces(ctx, b, phase)
  {
    hide Gone;
    if phase.Suspended? || phase.Retaining? || phase.Deleted? {
      DriftGone(ctx, a, b);
    }
  }

  // ---------------------------------------------------------------- whole runs: what the record proves

  predicate Activated(m: Moment) {
    m.state.status.active.Some?
  }

  predicate Enabled(m: Moment) {
    m.state.route.Some? && m.state.route.value.enabled
  }

  /** There is traffic, and it goes to an existing service of the application. */
  predicate Carries(ctx: Context, m: Moment) {
    Enabled(m) && m.state.route.value.backend.Some? && Serves(ctx, m.state.objects, m.state.promoted, m.state.route.value.backend.value)
  }

  ghost predicate PromotesAt(ctx: Context, trace: seq<Moment>, k: nat, release: Id) {
    k < |trace| && trace[k].action.Promotes? && trace[k].action.spec.release == release && Vouched(ctx, trace, k)
  }

  /** Up to moment i some reconciliation promoted the release, after seeing every process of its spec ready. */
  ghost predicate ProvenReady(ctx: Context, trace: seq<Moment>, i: nat, release: Id) {
    exists k: nat :: k <= i && PromotesAt(ctx, trace, k, release)
  }

  ghost predicate SucceedsAt(ctx: Context, trace: seq<Moment>, k: nat, release: Id) {
    k < |trace| && SucceededIn(trace[k].state.objects, MigrationKey(ctx, release))
  }

  /** Up to moment i the release's migration job was there and had succeeded. */
  ghost predicate ProvenMigrated(ctx: Context, trace: seq<Moment>, i: nat, release: Id) {
    exists k: nat :: k <= i && SucceedsAt(ctx, trace, k, release)
  }

  lemma {:induction false} PromotedWhen(ctx: Context, trace: seq<Moment>, immediate: bool, i: nat, release: Id)
    requires History(ctx, trace, immediate) && i < |trace| && release in trace[i].state.promoted
    ensures ProvenReady(ctx, trace, i, release)
    decreases i
  {
    hide Truthful, Sound, Vouched, Follows;
    if trace[i].action.Promotes? && trace[i].action.spec.release == release {
      assert PromotesAt(ctx, trace, i, release);
    } else {
      assert i > 0 && Next(ctx, trace[i - 1], trace[i], immediate);
      PromotedWhen(ctx, trace, immediate, i - 1, release);
      var k: nat :| k <= i - 1 && PromotesAt(ctx, trace, k, release);
      assert k <= i;
    }
  }

  lemma {:induction false} MigratedWhen(ctx: Context, trace: seq<Moment>, immediate: bool, i: nat, release: Id)
    requires History(ctx, trace, immediate) && i < |trace| && release in trace[i].state.migrated
    ensures ProvenMigrated(ctx, trace, i, release)
    decreases i
  {
    hide Sound, Vouched, Follows, SucceededIn;
    if trace[i].action.Notices? && trace[i].action.release == release {
      assert Truthful(ctx, trace[i]);
      assert SucceedsAt(ctx, trace, i, release);
    } else {
      hide Truthful;
      assert i > 0 && Next(ctx, trace[i - 1], trace[i], immediate);
      MigratedWhen(ctx, trace, immediate, i - 1, release);
      var k: nat :| k <= i - 1 && SucceedsAt(ctx, trace, k, release);
      assert k <= i;
    }
  }

  /** An enabled route always leads to an existing service of the application, and some reconciliation had seen every process
      of that service's release ready before it was first given traffic. */
  lemma TrafficSafe(ctx: Context, trace: seq<Moment>, i: nat)
    requires History(ctx, trace, true) && i < |trace| && Enabled(trace[i])
    ensures Carries(ctx, trace[i]) && Carrier(trace[i].state).Some? && ProvenReady(ctx, trace, i, Carrier(trace[i].state).value)
  {
    assert Sound(ctx, trace[i]) && Carries(ctx, trace[i]);
    hide Truthful, Next, Labelled, Gated, Ported, Vouched;
    PromotedWhen(ctx, trace, true, i, Carrier(trace[i].state).value);
  }

  // ---------------------------------------------------------------- which release has the traffic

  /** The route was last written at moment k, and neither it nor the status was written again up to moment j. */
  predicate WrittenLast(trace: seq<Moment>, k: nat, j: nat) {
    && k <= j < |trace| && trace[k].action.Routes?
    && forall n | k < n <= j :: !trace[n].action.Routes? && !trace[n].action.Unroutes? && !trace[n].action.Reveals?
  }

  /** Moment n promoted the spec stored at moment k, earlier in the same reconciliation. */
  predicate PromotedFor(trace: seq<Moment>, n: nat, k: nat) {
    n < k < |trace| && trace[n].turn == trace[k].turn && trace[n].action == Promotes(trace[k].state.app.spec)
  }

  lemma {:induction false} PromotingSince(ctx: Context, trace: seq<Moment>, immediate: bool, k: nat) returns (n: nat)
    requires History(ctx, trace, immediate) && k < |trace| && trace[k].promoting.Some?
    ensures n <= k && trace[n].turn == trace[k].turn && trace[n].action == Promotes(trace[k].promoting.value)
    decreases k
  {
    hide Truthful, Sound, Vouched, Follows, Changes, Ahead;
    assert k > 0 && Next(ctx, trace[k - 1], trace[k], immediate);
    if trace[k].action.Promotes? {
      n := k;
    } else {
      n := PromotingSince(ctx, trace, immediate, k - 1);
    }
  }

  lemma {:induction false} PromotingStays(ctx: Context, trace: seq<Moment>, immediate: bool, n: nat, k: nat)
    requires History(ctx, trace, immediate) && n <= k < |trace| && trace[n].action.Promotes?
    ensures trace[n].turn <= trace[k].turn && (trace[n].turn == trace[k].turn ==> trace[k].promoting.Some?)
    decreases k
  {
    hide Truthful, Sound, Vouched, Follows, Changes, Ahead;
    assert k > 0 && Next(ctx, trace[k - 1], trace[k], immediate);
    if n < k {
      PromotingStays(ctx, trace, immediate, n, k - 1);
    }
  }

  /** Traffic is on the recorded active release; or on a release promoted by the reconciliation that wrote the route last, and
      no status was written since. */
  ghost predicate OnCourse(trace: seq<Moment>, j: nat)
    requires j < |trace|
  {
    || Carrier(trace[j].state) == trace[j].state.status.active
    || exists n: nat, k: nat :: WrittenLast(trace, k, j) && PromotedFor(trace, n, k) && Carrier(trace[j].state) == Some(trace[k].state.app.spec.release)
  }

  lemma {:induction false} AheadSince(ctx: Context, trace: seq<Moment>, j: nat) returns (n: nat, k: nat)
    requires History(ctx, trace, true) && j < |trace| && trace[j].ahead.Some?
    ensures WrittenLast(trace, k, j) && trace[k].ahead == trace[j].ahead && trace[j].ahead.value == trace[k].state.app.spec.release
    ensures PromotedFor(trace, n, k)
    decreases j
  {
    hide Truthful, Good, Vouched, Follows, Changes, Carrier;
    assert Sound(ctx, trace[j]);
    assert j > 0 && Next(ctx, trace[j - 1], trace[j], true);
    if trace[j].action.Routes? {
      k := j;
      n := PromotingSince(ctx, trace, true, k);
    } else {
      n, k := AheadSince(ctx, trace, j - 1);
    }
  }

  lemma {:induction false} AheadStays(ctx: Context, trace: seq<Moment>, immediate: bool, k: nat, j: nat)
    requires History(ctx, trace, immediate) && WrittenLast(trace, k, j)
    ensures trace[j].ahead == trace[k].ahead
    decreases j
  {
    hide Truthful, Sound, Vouched, Follows, Carrier;
    if k < j {
      assert WrittenLast(trace, k, j - 1);
      AheadStays(ctx, trace, immediate, k, j - 1);
      assert Next(ctx, trace[j - 1], trace[j], immediate);
    }
  }

  /** Whatever the owner does, traffic is always on course. */
  lemma TrafficOnCourse(ctx: Context, trace: seq<Moment>, j: nat)
    requires History(ctx, trace, true) && j < |trace| && Enabled(trace[j])
    ensures OnCourse(trace, j)
  {
    hide Truthful, Good, Vouched, Next, Carrier;
    assert Sound(ctx, trace[j]);
    if trace[j].ahead.Some? {
      var n, k := AheadSince(ctx, trace, j);
    }
  }

  /** Moment n promoted a spec and moment k routed to it; no status was written since, and another spec was stored. */
  ghost predicate CutOff(trace: seq<Moment>, n: nat, k: nat, j: nat) {
    && WrittenLast(trace, k, j) && PromotedFor(trace, n, k)
    && var release := trace[n].action.spec.release; trace[k].state.status.active != Some(release) && trace[j].state.app.spec.release != release
  }

  /** Traffic is on the recorded active release or on the stored spec's, except exactly after a promotion that was cut off
      between route and status and then overtaken by another stored spec. */
  lemma CandidateOrActiveExactly(ctx: Context, trace: seq<Moment>, j: nat)
    requires History(ctx, trace, true) && j < |trace| && Enabled(trace[j])
    ensures Carrier(trace[j].state) in {trace[j].state.status.active, Some(trace[j].state.app.spec.release)} <==> !exists n: nat, k: nat :: CutOff(trace, n, k, j)
  {
    hide Truthful, Good, Vouched, Next;
    assert Sound(ctx, trace[j]);
    if Carrier(trace[j].state) !in {trace[j].state.status.active, Some(trace[j].state.app.spec.release)} {
      var n, k := AheadSince(ctx, trace, j);
      assert Sound(ctx, trace[k]);
      assert CutOff(trace, n, k, j);
    }
    if n: nat, k: nat :| CutOff(trace, n, k, j) {
      assert Sound(ctx, trace[k]);
      PromotingStays(ctx, trace, true, n, k);
      AheadStays(ctx, trace, true, k, j);
    }
  }

  // ---------------------------------------------------------------- no gap in traffic

  lemma {:induction false} StaysActivated(ctx: Context, trace: seq<Moment>, i: nat, j: nat)
    requires History(ctx, trace, true) && ctx.Steady() && i <= j < |trace| && Activated(trace[i])
    ensures Activated(trace[j])
    decreases j
  {
    hide Sound, Truthful, Vouched, Changes;
    if i < j {
      StaysActivated(ctx, trace, i, j - 1);
      assert Next(ctx, trace[j - 1], trace[j], true);
    }
  }

  /** Under the promise, from the first status that records an active release on, there is never a gap in traffic: it is on a
      service that was proven ready, of the recorded active release or of a candidate being promoted. */
  lemma NoTrafficGap(ctx: Context, trace: seq<Moment>, i: nat, j: nat)
    requires History(ctx, trace, true) && ctx.Steady() && i <= j < |trace| && Activated(trace[i])
    ensures Carries(ctx, trace[j]) && OnCourse(trace, j)
    ensures Carrier(trace[j].state).Some? && ProvenReady(ctx, trace, j, Carrier(trace[j].state).value)
  {
    hide Truthful, Next, Labelled, Gated, Ported, Vouched, OnCourse, ProvenReady;
    StaysActivated(ctx, trace, i, j);
    assert Sound(ctx, trace[j]);
    TrafficSafe(ctx, trace, j);
    TrafficOnCourse(ctx, trace, j);
  }

  /** The route was last written at moment k, with no active release on record, by a reconciliation that had promoted nothing. */
  predicate Unbacked(trace: seq<Moment>, k: nat, j: nat) {
    && k <= j < |trace| && trace[k].action.Routes? && !Activated(trace[k])
    && (forall n | 0 <= n < k && trace[n].turn == trace[k].turn :: !trace[n].action.Promotes?)
    && forall n | k < n <= j :: !trace[n].action.Routes?
  }

  /** A route write carries traffic exactly if an active release is on record or the reconciliation has promoted one. */
  lemma WrittenCarries(ctx: Context, trace: seq<Moment>, k: nat)
    requires History(ctx, trace, true) && ctx.Steady() && k < |trace| && trace[k].action.Routes?
    ensures Carries(ctx, trace[k]) <==> Activated(trace[k]) || exists n: nat :: PromotedFor(trace, n, k)
    ensures Carries(ctx, trace[k]) <==> !Unbacked(trace, k, k)
  {
    hide Truthful, Next, Labelled, Gated, Ported, Remembered, Backed, Vouched;
    assert Sound(ctx, trace[k]);
    if trace[k].promoting.Some? {
      var n := PromotingSince(ctx, trace, true, k);
      assert PromotedFor(trace, n, k);
    } else {
      forall n | 0 <= n < k && trace[n].turn == trace[k].turn ensures !trace[n].action.Promotes? {
        if trace[n].action.Promotes? {
          PromotingStays(ctx, trace, true, n, k);
        }
      }
    }
  }

  lemma {:induction false} RouteStays(ctx: Context, trace: seq<Moment>, i: nat, j: nat)
    requires History(ctx, trace, true) && ctx.Steady() && i <= j < |trace| && forall n | i < n <= j :: !trace[n].action.Routes?
    ensures trace[j].state.route == trace[i].state.route
    decreases j
  {
    hide Sound, Truthful, Vouched, Follows, Ahead;
    if i < j {
      RouteStays(ctx, trace, i, j - 1);
      assert Next(ctx, trace[j - 1], trace[j], true);
    }
  }

  lemma {:induction false} LastRouteWrite(trace: seq<Moment>, i: nat, j: nat) returns (k: nat)
    requires i <= j < |trace|
    ensures i <= k <= j && (i < k ==> trace[k].action.Routes?) && forall n | k < n <= j :: !trace[n].action.Routes?
    decreases j
  {
    if i == j || trace[j].action.Routes? {
      k := j;
    } else {
      k := LastRouteWrite(trace, i, j - 1);
    }
  }

  /** Before an active release is recorded there can be a gap: traffic that was there is gone exactly if the last route write
      since found no active release on record, in a reconciliation that had promoted none. */
  lemma GapExactly(ctx: Context, trace: seq<Moment>, i: nat, j: nat)
    requires History(ctx, trace, true) && ctx.Steady() && i <= j < |trace| && Carries(ctx, trace[i])
    ensures Carries(ctx, trace[j]) <==> !exists k: nat :: i < k && Unbacked(trace, k, j)
  {
    hide Truthful, Next, Labelled, Gated, Ported, Remembered, Backed, Vouched, PromotedFor;
    var k := LastRouteWrite(trace, i, j);
    RouteStays(ctx, trace, k, j);
    assert Sound(ctx, trace[j]) && Sound(ctx, trace[k]);
    if i < k {
      WrittenCarries(ctx, trace, k);
    }
    assert i < k ==> (Unbacked(trace, k, j) <==> Unbacked(trace, k, k));
    forall n: nat | i < n && Unbacked(trace, n, j) ensures !Carries(ctx, trace[j]) {
      assert n == k && Unbacked(trace, k, k);
    }
    if !Carries(ctx, trace[j]) {
      assert Unbacked(trace, k, j);
    }
  }

  // ---------------------------------------------------------------- deferred deletion

  /** From moment i up to moment j nobody deleted the object, and its deletion was not requested while it was there. */
  predicate Spares(trace: seq<Moment>, i: nat, j: nat, k: Key)
    requires j < |trace|
  {
    (forall n | i <= n < j :: OnObject(k) !in trace[n].state.pending) && (forall n | i < n <= j :: trace[n].action != Deletes(k))
  }

  /** However deletions take effect, an object, such as the service under a route, disappears only after its deletion was requested. */
  lemma {:induction false} UnmarkedStays(ctx: Context, trace: seq<Moment>, immediate: bool, i: nat, j: nat, k: Key)
    requires History(ctx, trace, immediate) && i <= j < |trace| && k in trace[i].state.objects && Spares(trace, i, j, k)
    ensures k in trace[j].state.objects
    decreases j
  {
    hide Sound, Truthful, Vouched, Follows, Ahead;
    if i < j {
      UnmarkedStays(ctx, trace, immediate, i, j - 1, k);
      assert Next(ctx, trace[j - 1], trace[j], immediate);
    }
  }

  /** The process was seen ready at moment n, and its deployment is still there at moment i or was asked to go since. */
  ghost predicate InPlace(ctx: Context, trace: seq<Moment>, n: nat, i: nat, spec: Spec, p: Process)
    requires n <= i < |trace|
  {
    var k := Key(DeploymentKind, Name(ctx.app, p.name, spec.release));
    k in trace[n].state.objects && (k in trace[i].state.objects || !Spares(trace, n, i, k))
  }

  /** However deletions take effect: a promoted release has the deployments of all its processes, unless their deletion was
      requested after the promoting reconciliation saw them ready. */
  lemma WorkloadsKept(ctx: Context, trace: seq<Moment>, immediate: bool, k: nat, i: nat, p: Process) returns (n: nat)
    requires History(ctx, trace, immediate) && k <= i < |trace| && trace[k].action.Promotes? && p in trace[k].action.spec.processes
    ensures n < k && ReadyAt(ctx, trace[n], trace[k].turn, trace[k].action.spec, p) && InPlace(ctx, trace, n, i, trace[k].action.spec, p)
  {
    hide Truthful, Sound, Next, ValidSpec, Spares;
    var spec := trace[k].action.spec;
    assert Vouched(ctx, trace, k);
    assert SawReady(ctx, trace, k, trace[k].turn, spec, p);
    n :| 0 <= n < k && ReadyAt(ctx, trace[n], trace[k].turn, spec, p);
    var key := Key(DeploymentKind, Name(ctx.app, p.name, spec.release));
    if Spares(trace, n, i, key) {
      UnmarkedStays(ctx, trace, immediate, n, i, key);
    }
  }

  // ---------------------------------------------------------------- the migration

  /** The spec stays on the release and is not being deleted, from after moment i up to moment j. */
  ghost predicate StaysOn(trace: seq<Moment>, i: nat, j: nat, release: Id)
    requires j < |trace|
  {
    forall k | i < k <= j :: trace[k].state.app.spec.release == release && !Deleting(trace[k].state.app.lifecycle)
  }

  lemma {:induction false} StaysMigrated(ctx: Context, trace: seq<Moment>, immediate: bool, i: nat, j: nat, release: Id)
    requires History(ctx, trace, immediate) && i <= j < |trace| && StaysOn(trace, i, j, release)
    requires trace[i].state.status.migrated == Some(release)
    ensures trace[j].state.status.migrated == Some(release)
    decreases j
  {
    hide Sound, Truthful, Vouched, Changes;
    if i < j {
      StaysMigrated(ctx, trace, immediate, i, j - 1, release);
      assert Next(ctx, trace[j - 1], trace[j], immediate);
    }
  }

  /** Once its success is recorded a migration is never submitted again, through any suspensions and resumptions, as long
      as the spec stays on the release. */
  lemma MigratesOnce(ctx: Context, trace: seq<Moment>, immediate: bool, i: nat, j: nat, release: Id, k: Key)
    requires History(ctx, trace, immediate) && i <= j < |trace| && StaysOn(trace, i, j, release)
    requires trace[i].state.status.migrated == Some(release) && k.kind.JobKind? && k.name.release == release
    ensures trace[j].action != Upserts(k)
  {
    hide Sound, Next, Vouched;
    StaysMigrated(ctx, trace, immediate, i, j, release);
    assert Truthful(ctx, trace[j]);
  }

  /** A deployment of a release with a migration, and with one spec per release a service of it, exists only once that
      migration's job was there and had succeeded. */
  lemma MigrationGates(ctx: Context, trace: seq<Moment>, i: nat, k: Key)
    requires History(ctx, trace, true) && i < |trace| && k in trace[i].state.objects
    ensures var o := trace[i].state.objects[k]; o.Deployment? && o.template.migration ==> ProvenMigrated(ctx, trace, i, o.template.release)
    ensures ctx.registry.Some? && k.name.app == ctx.app && trace[i].state.objects[k].Service? && ctx.registry.value(k.name.release).migration ==>
              ProvenMigrated(ctx, trace, i, k.name.release)
  {
    hide Truthful, Next, Labelled, RouteServes, Remembered, Flowing, Vouched, ProvenMigrated;
    assert Sound(ctx, trace[i]);
    var o := trace[i].state.objects[k];
    if o.Deployment? && o.template.migration {
      MigratedWhen(ctx, trace, true, i, o.template.release);
    }
    if ctx.registry.Some? && k.name.app == ctx.app && o.Service? && ctx.registry.value(k.name.release).migration {
      MigratedWhen(ctx, trace, true, i, k.name.release);
    }
  }

  // ---------------------------------------------------------------- the tear-down

  /** Workloads are deleted only without a route, and a final phase is announced only when nothing is left. */
  ghost predicate InOrder(ctx: Context, m: Moment) {
    && (m.action.Deletes? && TearingDown(m.state.app.lifecycle) ==> m.state.route.None?)
    && (m.action.Reveals? && (m.action.phase.Suspended? || m.action.phase.Retaining? || m.action.phase.Deleted?) ==>
          m.state.route.None? && forall k | k in m.state.objects :: m.state.objects[k].labels.application != ctx.application)
    && (m.action.Reveals? && (m.action.phase.Retaining? || m.action.phase.Deleted?) ==> m.state.policy.None?)
  }

  lemma TearDownInOrder(ctx: Context, trace: seq<Moment>, immediate: bool, i: nat)
    requires History(ctx, trace, immediate) && i < |trace|
    ensures InOrder(ctx, trace[i])
  {
    hide Sound, Next, Vouched;
    assert Truthful(ctx, trace[i]);
  }
}
