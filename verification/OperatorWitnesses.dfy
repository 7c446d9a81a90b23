/** Runs of the operator in which a property fails once its condition does: each starts on a fresh cluster, in calm weather,
    and is made of stored specs, reconciliations, and one stop of the operator. */
module OperatorWitnesses {
  import opened Int64
  import opened Cluster
  import opened MemoryClient
  import opened Operator
  import opened Steering

  /** An application with one web process. */
  function Sample(release: Id, migration: bool): Spec {
    Spec(release, [Process("web", 8080, 1, 1)], "web", "web.example.org", migration, 60, "default", "image")
  }

  function Stored(release: Id, migration: bool, lifecycle: Lifecycle): App {
    App(Sample(release, migration), lifecycle, 1)
  }

  const FRESH := Status(0, Phase.Unset, None, None, 0, None, None, None, None, 0, None, None)

  /** Every workload reports ready except those of one release; every job succeeds. */
  function Reporting(broken: Id): Reports {
    Reports((name: Name) => Report(if name.release == broken then 0 else 1, false, ""), (name: Name) => Succeeded, (name: Name) => "")
  }

  /** The owner's promise: one spec for each release, always active. */
  function Promised(): Context {
    Context("app", "id", Some((release: Id) => Sample(release, false)), true)
  }

  function Unpromised(): Context {
    Context("app", "id", None, false)
  }

  lemma SampleValid(release: Id, migration: bool)
    ensures ValidSpec(Sample(release, migration))
  {
    var p := Process("web", 8080, 1, 1);
    assert p in Sample(release, migration).processes;
  }

  lemma SampleReady(release: Id, migration: bool, broken: Id)
    ensures AllReady("app", Sample(release, migration), Reporting(broken)) <==> release != broken
  {
    var p := Process("web", 8080, 1, 1);
    assert p in Sample(release, migration).processes;
  }

  /** In a good state a route to a promoted release has its service's traffic. */
  lemma RouteCarries(ctx: Context, s: State, release: Id, hostname: string)
    requires Good(ctx, s) && ctx.app == "app" && s.route == Some(RouteOf("app", Sample(release, false), hostname))
    ensures Carrier(s) == Some(release) && Serves(ctx, s.objects, s.promoted, s.route.value.backend.value)
  {
    hide Gated, Ported, Remembered, Flowing;
  }

  // ---------------------------------------------------------------- pieces of runs

  /** The operator is running on its cluster in calm weather. */
  ghost predicate Runs(operator: Reconciler, ctx: Context, defer: bool, broken: Id)
    reads operator, operator.client
  {
    && operator.Connected() && operator.name == "app" && operator.application == "id" && operator.client.Clear()
    && operator.client.ctx == ctx && operator.client.deferDeletion == defer && operator.client.reports == Reporting(broken)
  }

  method Launch(app: App, defer: bool, broken: Id, ghost ctx: Context) returns (operator: Reconciler)
    requires ctx.app == "app" && ctx.application == "id" && ctx.Kept(app)
    ensures fresh(operator) && fresh(operator.client) && Runs(operator, ctx, defer, broken)
    ensures operator.client.State() == State(app, FRESH, map[], None, None, {}, {}, {})
  {
    hide Good, Aimed, History;
    var client := new Client(app, FRESH, defer, true, Reporting(broken), [], ctx);
    operator := new Reconciler(client, "app", "id");
  }

  /** The owner stores a spec that is ready, and it goes live. */
  method GoLive(operator: Reconciler, release: Id, migration: bool, defer: bool, broken: Id, ghost ctx: Context)
    requires Runs(operator, ctx, defer, broken) && ctx.Kept(Stored(release, migration, Lifecycle.Active)) && release != broken
    requires !Conflicting(Sample(release, migration), operator.client.status)
    modifies operator.client
    ensures Runs(operator, ctx, defer, broken) && old(operator.client.trace) <= operator.client.trace
    ensures Live("app", "id", Reporting(broken), operator.client.State()) && old(operator.client.pending) <= operator.client.pending
    ensures operator.client.app == Stored(release, migration, Lifecycle.Active)
  {
    hide Client.Valid, Live, AllReady, ValidSpec, Held;
    SampleValid(release, migration);
    SampleReady(release, migration, broken);
    operator.client.PutPaaSApp(Stored(release, migration, Lifecycle.Active));
    operator.client.Restart(false);
    var ok := operator.Reconcile(0);
  }

  /** The owner stores a spec that is ready, and the operator stops between its route and its status. */
  method StopAfterRoute(operator: Reconciler, release: Id, migration: bool, broken: Id, ghost ctx: Context)
    requires Runs(operator, ctx, false, broken) && ctx.Kept(Stored(release, migration, Lifecycle.Active)) && release != broken
    requires !Conflicting(Sample(release, migration), operator.client.status)
    modifies operator.client
    ensures Runs(operator, ctx, false, broken) && old(operator.client.trace) <= operator.client.trace
    ensures operator.client.app == Stored(release, migration, Lifecycle.Active)
    ensures operator.client.status == old(operator.client.status) && (migration ==> release in operator.client.migrated)
    ensures operator.client.route == Some(RouteOf("app", Sample(release, migration), "web.example.org"))
    ensures migration && operator.client.status.migrated.None? && MigrationOf("app", Sample(release, migration)) !in old(operator.client.objects) ==>
              operator.SubmittedSince(|old(operator.client.trace)|, true)
  {
    hide Client.Valid, AllReady, ValidSpec, Held, Live;
    SampleValid(release, migration);
    SampleReady(release, migration, broken);
    operator.client.PutPaaSApp(Stored(release, migration, Lifecycle.Active));
    operator.client.Restart(true);
    var ok := operator.Reconcile(0);
    operator.client.Restart(false);
  }

  // ---------------------------------------------------------------- traffic

  /** Release r1 is live, the promotion of r2 is cut off after its route write, and r3 is stored: traffic is neither on the
      recorded active release nor on the stored spec's, even under the owner's promise. */
  method PromotionOvertaken() returns (ghost ctx: Context, ghost trace: seq<Moment>, ghost j: nat)
    ensures ctx.Steady() && History(ctx, trace, true) && j < |trace|
    ensures Enabled(trace[j]) && Carrier(trace[j].state) == Some("r2")
    ensures trace[j].state.status.active == Some("r1") && trace[j].state.app.spec.release == "r3"
    ensures exists n: nat, k: nat :: CutOff(trace, n, k, j)
  {
    hide Live, History, Good, Aimed, Carrier, CutOff, Conflicting;
    ctx := Promised();
    var operator := Launch(Stored("r1", false, Lifecycle.Active), false, "none", ctx);
    var client := operator.client;
    FreshAgrees("r1", false);
    GoLive(operator, "r1", false, false, "none", ctx);
    LiveAgrees(client.State(), "r1", "r2", "none");
    StopAfterRoute(operator, "r2", false, "none", ctx);
    client.PutPaaSApp(Stored("r3", false, Lifecycle.Active));
    trace, j := client.trace, |client.trace| - 1;
    RouteCarries(ctx, client.State(), "r2", "web.example.org");
    CandidateOrActiveExactly(ctx, trace, j);
  }

  /** Under the owner's promise the first promotion is cut off after its route write, and the next spec is not ready: the
      traffic there was is gone. */
  method FirstPromotionLost() returns (ghost ctx: Context, ghost trace: seq<Moment>, ghost i: nat, ghost j: nat)
    ensures ctx.Steady() && History(ctx, trace, true) && i < j < |trace|
    ensures Carries(ctx, trace[i]) && !Carries(ctx, trace[j])
    ensures exists k: nat :: i < k && Unbacked(trace, k, j)
  {
    hide Live, History, Good, Aimed, Carrier, Conflicting, Unbacked, Unhindered, Client.Valid, ValidSpec, AllReady, Serves;
    ctx := Promised();
    var operator := Launch(Stored("r1", false, Lifecycle.Active), false, "r2", ctx);
    var client := operator.client;
    FreshAgrees("r1", false);
    FreshAgrees("r2", false);
    StopAfterRoute(operator, "r1", false, "r2", ctx);
    RouteCarriesNow(operator, ctx, "r1");
    i := |client.trace| - 1;
    ghost var sofar := client.trace;
    Linger(operator, "r2", ctx);
    trace, j := client.trace, |client.trace| - 1;
    LastMoment(operator);
    GapExactly(ctx, trace, i, j);
  }

  lemma RouteCarriesNow(operator: Reconciler, ctx: Context, release: Id)
    requires operator.Connected() && !operator.client.deferDeletion && operator.client.ctx == ctx && ctx.app == "app"
    requires operator.client.route == Some(RouteOf("app", Sample(release, false), "web.example.org"))
    ensures operator.client.trace != [] && Carries(ctx, operator.client.trace[|operator.client.trace| - 1])
  {
    hide Good, Aimed, History, Serves;
    RouteCarries(ctx, operator.client.State(), release, "web.example.org");
  }

  lemma LastMoment(operator: Reconciler)
    requires operator.Connected()
    ensures var c := operator.client; c.trace != [] && c.trace[|c.trace| - 1].state == c.State() && History(c.ctx, c.trace, !c.deferDeletion)
  {
    hide Good, Aimed, History;
  }

  /** The owner stores a spec that is not ready, while no active release is recorded. */
  method Linger(operator: Reconciler, release: Id, ghost ctx: Context)
    requires Runs(operator, ctx, false, release) && ctx.Kept(Stored(release, false, Lifecycle.Active))
    requires !Conflicting(Sample(release, false), operator.client.status) && operator.client.status.active.None?
    modifies operator.client
    ensures Runs(operator, ctx, false, release) && old(operator.client.trace) < operator.client.trace
    ensures operator.client.route.Some? && !operator.client.route.value.enabled
  {
    hide Client.Valid, AllReady, ValidSpec, Live;
    SampleValid(release, false);
    SampleReady(release, false, release);
    operator.client.PutPaaSApp(Stored(release, false, Lifecycle.Active));
    operator.client.Restart(false);
    var ok := operator.Reconcile(0);
  }

  lemma FreshAgrees(release: Id, migration: bool)
    ensures !Conflicting(Sample(release, migration), FRESH)
  {}

  lemma LiveAgrees(s: State, release: Id, next: Id, broken: Id)
    requires Live("app", "id", Reporting(broken), s) && s.app.spec.release == release && release != next
    ensures !Conflicting(Sample(next, false), s.status) && s.status.active == Some(release)
  {}

  // ---------------------------------------------------------------- suspension

  /** One reconciliation of a suspension. */
  method Withdraw(operator: Reconciler, release: Id, migration: bool, defer: bool, broken: Id, ghost ctx: Context)
    requires Runs(operator, ctx, defer, broken) && operator.client.app == Stored(release, migration, Lifecycle.Suspending)
    modifies operator.client
    ensures Runs(operator, ctx, defer, broken) && old(operator.client.trace) <= operator.client.trace
    ensures operator.client.app == old(operator.client.app) && Spared(old(operator.client.status), operator.client.status)
    ensures operator.client.State() == Withdrawn("id", old(operator.client.State()), defer, Reporting(broken)).(status := operator.client.status)
  {
    hide Client.Valid, AllReady, ValidSpec, Live, Held, Withdrawn;
    SampleValid(release, migration);
    var ok := operator.Reconcile(0);
  }

  /** While deletions are immediate: route first, then everything else. */
  method Suspend(operator: Reconciler, release: Id, migration: bool, broken: Id, ghost ctx: Context)
    requires Runs(operator, ctx, false, broken) && operator.client.route.Some? && ctx.Kept(Stored(release, migration, Lifecycle.Suspending))
    modifies operator.client
    ensures Runs(operator, ctx, false, broken) && old(operator.client.trace) < operator.client.trace
    ensures Spared(old(operator.client.status), operator.client.status)
    ensures Stripped(operator.client.State())
  {
    hide Client.Valid;
    operator.client.PutPaaSApp(Stored(release, migration, Lifecycle.Suspending));
    Withdraw(operator, release, migration, false, broken, ctx);
    ghost var s := operator.client.State();
    Withdraw(operator, release, migration, false, broken, ctx);
    NothingSpared(s, Reporting(broken));
  }

  predicate Stripped(s: State) {
    forall k | k in s.objects :: s.objects[k].labels.application != "id"
  }

  lemma NothingSpared(s: State, reports: Reports)
    requires s.route.None?
    ensures Stripped(Withdrawn("id", s, false, reports))
  {
    var b := Withdrawn("id", s, false, reports);
    forall k | k in b.objects ensures b.objects[k].labels.application != "id" {
      EveryKind(k.kind);
      assert k in s.objects && b.objects[k].labels == s.objects[k].labels && k !in Doomed("id", s, false, AllKinds());
    }
  }

  /** What carries no label of the application does not have an own name. */
  lemma JobGone(operator: Reconciler, release: Id)
    requires operator.Connected() && !operator.client.deferDeletion && operator.name == "app" && operator.application == "id"
    requires Stripped(operator.client.State())
    ensures MigrationKey(operator.client.ctx, release) !in operator.client.objects
  {
    hide Gated, RouteServes, Remembered, Ported, Flowing, Aimed, History;
  }

  /** The application is resumed before its migration is on record. */
  method Resume(operator: Reconciler, release: Id, broken: Id, ghost ctx: Context)
    requires Runs(operator, ctx, false, broken) && ctx.Kept(Stored(release, true, Lifecycle.Resuming))
    requires !Conflicting(Sample(release, true), operator.client.status) && operator.client.status.migrated.None?
    requires MigrationOf("app", Sample(release, true)) !in operator.client.objects
    modifies operator.client
    ensures operator.Connected() && old(operator.client.trace) <= operator.client.trace
    ensures exists n: nat :: |old(operator.client.trace)| <= n && Submits(operator.client.trace, n, MigrationOf("app", Sample(release, true)), true)
  {
    hide Client.Valid, AllReady, ValidSpec, Live, Held, Submits;
    SampleValid(release, true);
    operator.client.PutPaaSApp(Stored(release, true, Lifecycle.Resuming));
    operator.client.Restart(false);
    var ok := operator.Reconcile(0);
    assert operator.SubmittedSince(|old(operator.client.trace)|, true);
  }

  /** Every moment of a run under this promise has the one spec. */
  lemma OneSpec(ctx: Context, trace: seq<Moment>, spec: Spec)
    requires History(ctx, trace, true) && ctx == Fixed(spec)
    ensures forall i | 0 <= i < |trace| :: trace[i].state.app.spec == spec
  {
    hide Truthful, Next, Vouched, Labelled, RouteServes, Gated, Remembered, Ported, Flowing, Aimed;
    forall i | 0 <= i < |trace| ensures trace[i].state.app.spec == spec {
      assert Sound(ctx, trace[i]);
    }
  }

  /** Only ever this one spec. */
  function Fixed(spec: Spec): Context {
    Context("app", "id", Some((release: Id) => spec), false)
  }

  /** The migration is submitted and succeeds, and the operator stops before it can record that. */
  method MigrateUnrecorded(operator: Reconciler, ghost ctx: Context) returns (ghost first: nat, ghost success: nat)
    requires Runs(operator, ctx, false, "none") && operator.client.State() == State(Stored("r1", true, Lifecycle.Active), FRESH, map[], None, None, {}, {}, {})
    modifies operator.client
    ensures Runs(operator, ctx, false, "none") && operator.client.status == FRESH && operator.client.route.Some?
    ensures var t := operator.client.trace;
            first < |t| && success < |t| && Submits(t, first, MigrationKey(ctx, "r1"), true) && SucceedsAt(ctx, t, success, "r1")
  {
    hide Good, Aimed, History, SucceededIn;
    FreshAgrees("r1", true);
    StopAfterRoute(operator, "r1", true, "none", ctx);
    LastMoment(operator);
    ghost var t := operator.client.trace;
    first :| Submits(t, first, MigrationKey(ctx, "r1"), true);
    MigratedWhen(ctx, t, true, |t| - 1, "r1");
    success :| success <= |t| - 1 && SucceedsAt(ctx, t, success, "r1");
  }

  /** A migration's success that a stop kept off the record is followed by a second submission once a suspension has removed
      the job, although there was only ever this one spec. */
  method MigrationRepeated() returns (ghost ctx: Context, ghost trace: seq<Moment>, ghost first: nat, ghost success: nat, ghost gone: nat, ghost second: nat)
    ensures History(ctx, trace, true) && first < gone && success < gone < second < |trace|
    ensures forall i | 0 <= i < |trace| :: trace[i].state.app.spec == Sample("r1", true)
    ensures Submits(trace, first, MigrationKey(ctx, "r1"), true) && SucceedsAt(ctx, trace, success, "r1")
    ensures MigrationKey(ctx, "r1") !in trace[gone].state.objects && Submits(trace, second, MigrationKey(ctx, "r1"), true)
  {
    hide Good, Aimed, History, Client.Valid, Conflicting, Submits, SucceedsAt, Stripped, Spared;
    ctx := Fixed(Sample("r1", true));
    var operator := Launch(Stored("r1", true, Lifecycle.Active), false, "none", ctx);
    first, success := MigrateUnrecorded(operator, ctx);
    ghost var migrated := operator.client.trace;
    PutSuspending(operator, ctx);
    LastMoment(operator);
    ghost var suspended := operator.client.trace;
    gone := |suspended| - 1;
    Resume(operator, "r1", "none", ctx);
    LastMoment(operator);
    trace := operator.client.trace;
    second :| |suspended| <= second && Submits(trace, second, MigrationKey(ctx, "r1"), true);
    OneSpec(ctx, trace, Sample("r1", true));
    SubmitsStill(migrated, trace, first, MigrationKey(ctx, "r1"), true);
    SubmitsStill(trace, trace, second, MigrationKey(ctx, "r1"), true);
    SucceedsStill(ctx, migrated, trace, success, "r1");
  }

  /** The suspension leaves the migration unrecorded and removes its job. */
  method PutSuspending(operator: Reconciler, ghost ctx: Context)
    requires Runs(operator, ctx, false, "none") && operator.client.route.Some? && operator.client.status == FRESH
    requires ctx.Kept(Stored("r1", true, Lifecycle.Suspending))
    modifies operator.client
    ensures Runs(operator, ctx, false, "none") && old(operator.client.trace) < operator.client.trace
    ensures !Conflicting(Sample("r1", true), operator.client.status) && operator.client.status.migrated.None?
    ensures MigrationKey(ctx, "r1") !in operator.client.objects
  {
    hide Good, Aimed, History, Client.Valid, Stripped;
    Suspend(operator, "r1", true, "none", ctx);
    JobGone(operator, "r1");
  }

  lemma SucceedsStill(ctx: Context, trace: seq<Moment>, more: seq<Moment>, k: nat, release: Id)
    requires SucceedsAt(ctx, trace, k, release) && trace <= more
    ensures SucceedsAt(ctx, more, k, release)
  {}

  // ---------------------------------------------------------------- deferred deletion

  /** With deferred deletion a suspension marks the service of r1, a resumption gives it traffic again, and then the deletion
      takes effect: the enabled route leads to a service that is gone. */
  method MarkedServiceDisappears() returns (ghost ctx: Context, ghost trace: seq<Moment>)
    ensures History(ctx, trace, false) && trace != []
    ensures var m := trace[|trace| - 1];
            Enabled(m) && m.state.route.value.backend.Some? && Key(ServiceKind, m.state.route.value.backend.value) !in m.state.objects
  {
    hide Good, Aimed, History, Client.Valid, Conflicting, Live, Spared, Withdrawn;
    ctx := Unpromised();
    var operator := Launch(Stored("r1", false, Lifecycle.Active), true, "none", ctx);
    var client := operator.client;
    FreshAgrees("r1", false);
    GoLive(operator, "r1", false, true, "none", ctx);
    LiveRouted(client.State());
    MarkAll(operator, ctx);
    GoLive(operator, "r1", false, true, "none", ctx);
    LiveRouted(client.State());
    client.CompletePendingDeletions({OnObject(WEB)});
    LastMoment(operator);
    trace := client.trace;
  }

  const WEB := Key(ServiceKind, NameOf("app", Sample("r1", false), "web"))

  lemma LiveRouted(s: State)
    requires Live("app", "id", Reporting("none"), s) && s.app.spec == Sample("r1", false)
    ensures s.route == Some(RouteOf("app", Sample("r1", false), "web.example.org"))
    ensures WEB in s.objects && s.objects[WEB].labels.application == "id"
    ensures s.status.candidate == Some("r1") && s.status.fingerprint == Some(Sample("r1", false))
  {
    assert Desired("app", "id", s.app.spec, s, s.app.spec.processes[0]);
  }

  /** Two reconciliations of a suspension mark the route, which goes, and then the service, which stays. */
  method MarkAll(operator: Reconciler, ghost ctx: Context)
    requires Runs(operator, ctx, true, "none") && ctx == Unpromised() && operator.client.route.Some?
    requires operator.client.status.candidate == Some("r1") && operator.client.status.fingerprint == Some(Sample("r1", false))
    requires WEB in operator.client.objects && operator.client.objects[WEB].labels.application == "id"
    modifies operator.client
    ensures Runs(operator, ctx, true, "none") && !Conflicting(Sample("r1", false), operator.client.status)
    ensures OnObject(WEB) in operator.client.pending
  {
    hide Client.Valid, Doomed;
    var client := operator.client;
    client.PutPaaSApp(Stored("r1", false, Lifecycle.Suspending));
    Withdraw(operator, "r1", false, true, "none", ctx);
    client.CompletePendingDeletions({OnRoute});
    ghost var s := client.State();
    DoomedWeb(s);
    Withdraw(operator, "r1", false, true, "none", ctx);
  }

  lemma DoomedWeb(s: State)
    requires WEB in s.objects && s.objects[WEB].labels.application == "id"
    ensures WEB in Doomed("id", s, false, AllKinds())
  {
    EveryKind(WEB.kind);
  }
}
