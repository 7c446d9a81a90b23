/** Whole runs of the operator: any sequence of stored specs and reconciliations, each cut off anywhere. */
module OperatorRuns {
  import opened Int64
  import opened Cluster
  import opened MemoryClient
  import opened Operator
  import opened Steering

  /** The owner stores an application, a reconciliation runs, the operator is started again or told to stop right after its
      next route write, some of the requested deletions complete. */
  datatype Event = Put(app: App) | Reconcile(now: int) | Restart(stopping: bool) | Complete(done: set<Target>)

  /** Wherever a route leads, it is to an existing service of a release that was seen ready, and on course. */
  ghost predicate SafeTraffic(ctx: Context, trace: seq<Moment>) {
    forall i | 0 <= i < |trace| && Enabled(trace[i]) :: SafeAt(ctx, trace, i)
  }

  ghost predicate SafeAt(ctx: Context, trace: seq<Moment>, i: nat)
    requires i < |trace|
  {
    Carries(ctx, trace[i]) && OnCourse(trace, i) && Carrier(trace[i].state).Some? && ProvenReady(ctx, trace, i, Carrier(trace[i].state).value)
  }

  /** Once an active release is recorded traffic never stops, and before that only when a route write finds none recorded. */
  ghost predicate Gapless(ctx: Context, trace: seq<Moment>) {
    forall i, j | 0 <= i <= j < |trace| :: NoGap(ctx, trace, i, j)
  }

  ghost predicate NoGap(ctx: Context, trace: seq<Moment>, i: nat, j: nat)
    requires i <= j < |trace|
  {
    && (Activated(trace[i]) ==> Carries(ctx, trace[j]))
    && (Carries(ctx, trace[i]) ==> (Carries(ctx, trace[j]) <==> !exists k: nat :: i < k && Unbacked(trace, k, j)))
  }

  /** Deployments, and with one spec per release services, come after their release's migration. */
  ghost predicate GatedByMigration(ctx: Context, trace: seq<Moment>) {
    forall i, k | 0 <= i < |trace| && k in trace[i].state.objects :: GatedAt(ctx, trace, i, k)
  }

  ghost predicate GatedAt(ctx: Context, trace: seq<Moment>, i: nat, k: Key)
    requires i < |trace| && k in trace[i].state.objects
  {
    var o := trace[i].state.objects[k];
    && (o.Deployment? && o.template.migration ==> ProvenMigrated(ctx, trace, i, o.template.release))
    && (ctx.registry.Some? && k.name.app == ctx.app && o.Service? && ctx.registry.value(k.name.release).migration ==>
          ProvenMigrated(ctx, trace, i, k.name.release))
  }

  /** What a history proves, moment by moment. */
  lemma Proven(ctx: Context, trace: seq<Moment>)
    requires History(ctx, trace, true)
    ensures SafeTraffic(ctx, trace) && GatedByMigration(ctx, trace) && (ctx.Steady() ==> Gapless(ctx, trace))
  {
    hide History, Carries, OnCourse, ProvenReady, ProvenMigrated, Carrier;
    forall i | 0 <= i < |trace| && Enabled(trace[i]) ensures SafeAt(ctx, trace, i) {
      TrafficSafe(ctx, trace, i);
      TrafficOnCourse(ctx, trace, i);
    }
    forall i, k | 0 <= i < |trace| && k in trace[i].state.objects ensures GatedAt(ctx, trace, i, k) {
      MigrationGates(ctx, trace, i, k);
    }
    if ctx.Steady() {
      forall i, j | 0 <= i <= j < |trace| ensures NoGap(ctx, trace, i, j) {
        if Activated(trace[i]) {
          NoTrafficGap(ctx, trace, i, j);
        }
        if Carries(ctx, trace[i]) {
          GapExactly(ctx, trace, i, j);
        }
      }
    }
  }

  /** Any run on a fresh cluster, under any weather and with the operator stopped and started anywhere: tear-downs go in order,
      and while deletions are immediate traffic is safe, gated by migrations, and without a gap as far as the owner's promise
      goes. */
  method Operate(app: App, status: Status, defer: bool, calm: bool, reports: Reports, weather: seq<Weather>, events: seq<Event>,
                 name: string, application: Id, ghost ctx: Context) returns (ghost trace: seq<Moment>)
    requires ctx.app == name && ctx.application == application && ctx.Kept(app)
    requires status.active.None? && status.migrated.None?
    requires forall e | e in events && e.Put? :: ctx.Kept(e.app)
    ensures History(ctx, trace, !defer)
    ensures forall i | 0 <= i < |trace| :: InOrder(ctx, trace[i])
    ensures !defer ==> SafeTraffic(ctx, trace) && GatedByMigration(ctx, trace) && (ctx.Steady() ==> Gapless(ctx, trace))
  {
    hide History, Good, Aimed, SafeTraffic, GatedByMigration, Gapless, InOrder;
    var client := new Client(app, status, defer, calm, reports, weather, ctx);
    var operator := new Reconciler(client, name, application);
    for i := 0 to |events|
      invariant operator.client == client && operator.Connected() && client.ctx == ctx && client.deferDeletion == defer
    {
      match events[i] {
        case Put(a) =>
          assert events[i] in events;
          client.PutPaaSApp(a);
        case Reconcile(now) =>
          var ok := operator.Reconcile(now);
        case Restart(stopping) =>
          client.Restart(stopping);
        case Complete(done) =>
          client.CompletePendingDeletions(done);
      }
    }
    trace := client.trace;
    forall i | 0 <= i < |trace| ensures InOrder(ctx, trace[i]) {
      TearDownInOrder(ctx, trace, !defer, i);
    }
    if !defer {
      Proven(ctx, trace);
    }
  }

  // ---------------------------------------------------------------- convergence

  /** No workload of any release but the stored one. */
  ghost predicate NoLeftovers(application: Id, s: State) {
    forall k | k in s.objects && s.objects[k].labels.application == application :: s.objects[k].labels.release == s.app.spec.release
  }

  lemma CleanedHasNone(application: Id, s: State, reports: Reports)
    ensures NoLeftovers(application, Cleaned(application, s, false, reports))
  {
    var c := Cleaned(application, s, false, reports);
    RequestedLeaves(application, s, false, reports, true);
    forall k | k in c.objects && c.objects[k].labels.application == application ensures c.objects[k].labels.release == c.app.spec.release {
      EveryKind(k.kind);
      assert k !in Doomed(application, c, true, AllKinds());
    }
  }

  lemma NothingToClean(app: string, application: Id, s: State, reports: Reports)
    requires Live(app, application, reports, s) && NoLeftovers(application, s)
    ensures Cleaned(application, s, false, reports) == s
  {
    LiveBegins(app, application, reports, s);
    assert Doomed(application, s, true, AllKinds()) == {};
  }

  /** With a fixed valid spec, its migration done or its job succeeding, and every process reporting ready, two
      reconciliations reach the live state without leftovers, and a third changes nothing at all. */
  method Converge(operator: Reconciler, first: int, second: int, third: int) returns (ghost settled: State)
    requires operator.Connected() && operator.Wanted() && operator.Healthy() && !operator.client.deferDeletion
    requires Unhindered(operator.name, operator.client.app.spec, operator.client.status, operator.client.reports)
    modifies operator.client
    ensures operator.Connected() && settled.app == old(operator.client.app)
    ensures Live(operator.name, operator.application, operator.client.reports, settled) && NoLeftovers(operator.application, settled)
    ensures operator.client.State() == settled
  {
    hide Live, Cleaned, Reconciler.Connected, NoLeftovers, Held;
    var client := operator.client;
    var ok := operator.Reconcile(first);
    ghost var once := client.State();
    LiveBegins(operator.name, operator.application, client.reports, once);
    ok := operator.Reconcile(second);
    settled := client.State();
    CleanedLive(operator.name, operator.application, false, client.reports, once);
    CleanedHasNone(operator.application, once, client.reports);
    LiveBegins(operator.name, operator.application, client.reports, settled);
    NothingToClean(operator.name, operator.application, settled, client.reports);
    ok := operator.Reconcile(third);
  }

  // ---------------------------------------------------------------- tear-down

  ghost predicate Due(f: nat -> set<Target>, t: Target, n: nat, m: nat) {
    n <= m && t in f(m)
  }

  /** Every deletion completes in some later round. */
  ghost predicate Fair(f: nat -> set<Target>) {
    forall t: Target, n: nat :: Eventually(f, t, n)
  }

  ghost predicate Eventually(f: nat -> set<Target>, t: Target, n: nat) {
    exists m: nat :: Due(f, t, n, m)
  }

  lemma CompletionShrinks(s: State, done: set<Target>, t: Target)
    requires Waiting(s, t)
    ensures var c := CarriedOut(s, done);
            Left(c) <= Left(s) && (t in done ==> Left(c) < Left(s)) && (t !in done ==> Waiting(c, t))
  {
    var c := CarriedOut(s, done);
    CompletionSize(s, done);
    if t in done && t.OnObject? {
      assert t.key in s.objects.Keys && t.key !in c.objects.Keys;
      SubsetSize(c.objects.Keys, s.objects.Keys);
    }
  }

  lemma CompletionSize(s: State, done: set<Target>)
    ensures var c := CarriedOut(s, done);
            c.objects.Keys <= s.objects.Keys && |c.objects| <= |s.objects| && Left(c) <= Left(s) && c.app == s.app
  {
    var c := CarriedOut(s, done);
    assert c.objects.Keys <= s.objects.Keys;
    if c.objects.Keys != s.objects.Keys {
      SubsetSize(c.objects.Keys, s.objects.Keys);
    }
  }

  /** In calm weather, with every requested deletion completing eventually, a tear-down reaches its final phase, and then
      neither route nor workload of the application is left; nor, after a deletion, the policy. */
  method TearDown(operator: Reconciler, f: nat -> set<Target>, now: int)
    requires operator.Connected() && operator.client.Clear() && ValidSpec(operator.client.app.spec) && TearingDown(operator.client.app.lifecycle)
    requires Fair(f)
    modifies operator.client
    ensures operator.Connected() && operator.client.app == old(operator.client.app)
    ensures operator.client.status.phase == Goal(operator.client.app.lifecycle)
    ensures Gone(operator.client.ctx, operator.client.State())
    ensures Deleting(operator.client.app.lifecycle) ==> operator.client.policy.None?
  {
    hide Reconciler.Connected, Live, Cleaned, Held, Gone, CarriedOut, Left, Waiting;
    var client := operator.client;
    var n: nat := 0;
    ghost var chosen, t, m: nat := false, OnRoute, 0;
    while true
      invariant operator.Connected() && client.Clear() && client.app == old(client.app)
      invariant chosen ==> Waiting(client.State(), t) && Due(f, t, n, m)
      decreases Left(client.State()), if chosen then 0 else 1, if chosen then m - n else 0
    {
      ghost var before := client.State();
      var ok := operator.Reconcile(now);
      if IsFinal(client.status.phase) {
        return;
      }
      ghost var mid := client.State();
      if Left(mid) < Left(before) {
        chosen := false;
      } else if !chosen {
        chosen := true;
        t :| Waiting(mid, t);
        assert Eventually(f, t, n);
        m :| Due(f, t, n, m);
      }
      CompletionSize(mid, f(n));
      if chosen {
        CompletionShrinks(mid, f(n), t);
        if t in f(n) {
          chosen := false;
        }
      }
      CompleteSome(operator, f(n));
      n := n + 1;
    }
  }

  method CompleteSome(operator: Reconciler, done: set<Target>)
    requires operator.Connected()
    modifies operator.client
    ensures operator.Connected() && operator.client.State() == CarriedOut(old(operator.client.State()), done)
    ensures operator.client.stopped == old(operator.client.stopped)
  {
    operator.client.CompletePendingDeletions(done);
  }
}
