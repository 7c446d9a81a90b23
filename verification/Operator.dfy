/** The runtime operator: one reconciliation moves the cluster toward the stored application, call by call. */
module Operator {
  import opened Int64
  import opened Cluster
  import opened MemoryClient
  import opened Outcomes
  import opened Steering

  class Reconciler {
    const client: Client
    const name: string
    const application: Id

    constructor (client: Client, name: string, application: Id)
      ensures this.client == client && this.name == name && this.application == application
    {
      this.client, this.name, this.application := client, name, application;
    }

    ghost predicate Connected()
      reads this, client
    {
      client.Valid() && client.ctx.app == name && client.ctx.application == application
    }

    /** In calm weather with immediate deletion: every process has what it asks for and reports what it always reports. */
    ghost predicate Settled(s: State, spec: Spec)
      reads this, client
    {
      client.Clear() && !client.deferDeletion && IsCalm(s.objects, client.reports) && AllDesired(name, application, spec, s, |spec.processes|)
    }

    /** What a call was not about stays: the weather is calm, or deletions are immediate and so none is under way. */
    predicate Firm()
      reads this, client
    {
      client.Clear() || !client.deferDeletion
    }

    lemma NothingPending()
      requires Connected()
      ensures !client.deferDeletion ==> client.pending == {}
    {}

    // -------------------------------------------------------------- one process

    /** Upserts the deployment and reads back what it reports. */
    method RolloutDeployment(spec: Spec, p: Process) returns (ok: bool, report: Report)
      requires Connected() && client.app.spec == spec && p in spec.processes
      requires !client.deferDeletion ==> (spec.migration ==> spec.release in client.migrated)
      modifies client`objects, client`route, client`policy, client`pending, client`weather, client`trace
      ensures Connected() && old(client.trace) <= client.trace
      ensures ok && Firm() ==>
                HasDeployment(name, application, spec, client.objects, p)
                && Touches(old(client.State()), client.State(), {ProcessKey(DeploymentKind, name, spec, p)})
      ensures client.Clear() ==> ok && report == client.reports.of(NameOf(name, spec, p.name))
      ensures client.Clear() && IsCalm(old(client.objects), client.reports) && HasDeployment(name, application, spec, old(client.objects), p) ==>
                client.State() == old(client.State())
    {
      hide Good, Client.Valid, History, Touches, Drift;
      var k := ProcessKey(DeploymentKind, name, spec, p);
      var v := Deployment(LabelsOf(application, spec), spec, Report(0, false, ""));
      report := Report(0, false, "");
      NothingPending();
      ghost var before := client.State();
      ghost var mid;
      ok, mid := client.Upsert(k, v);
      if !ok {
        return;
      }
      NothingPending();
      ghost var after := client.State();
      var found;
      ok, found := client.Get(k);
      if Firm() {
        CallTouches(before, mid, client.Clear(), client.reports);
        PutTouches(before, mid, k, Merged(mid.objects, k, v));
        CallTouches(after, client.State(), client.Clear(), client.reports);
        TouchesBoth(before, after, client.State(), {k}, {});
        assert {k} + {} == {k};
        KeepsOthers(name, application, spec, p, after, client.State(), {});
      }
      if found.Some? && found.value.Deployment? {
        report := found.value.report;
      }
    }

    method RolloutService(spec: Spec, p: Process) returns (ok: bool)
      requires Connected() && client.app.spec == spec && p in spec.processes && ValidSpec(spec) && p.port > 0
      requires !client.deferDeletion ==> (spec.migration ==> spec.release in client.migrated)
      modifies client`objects, client`route, client`policy, client`pending, client`weather, client`trace
      ensures Connected() && old(client.trace) <= client.trace
      ensures ok && Firm() ==>
                HasService(name, application, spec, client.objects, p)
                && Touches(old(client.State()), client.State(), {ProcessKey(ServiceKind, name, spec, p)})
      ensures client.Clear() ==> ok
      ensures client.Clear() && IsCalm(old(client.objects), client.reports) && HasService(name, application, spec, old(client.objects), p) ==>
                client.State() == old(client.State())
    {
      hide Good, History, Touches;
      PortFound(spec.processes, p);
      NothingPending();
      var k := ProcessKey(ServiceKind, name, spec, p);
      var v := Service(LabelsOf(application, spec), p.port, p.name);
      ghost var mid;
      ok, mid := client.Upsert(k, v);
      if ok && Firm() {
        CallTouches(old(client.State()), mid, client.Clear(), client.reports);
        PutTouches(old(client.State()), mid, k, Merged(mid.objects, k, v));
      }
    }

    /** An autoscaler exactly where the process may grow. */
    method RolloutHpa(spec: Spec, p: Process) returns (ok: bool)
      requires Connected() && client.app.spec == spec && p in spec.processes && !TearingDown(client.app.lifecycle)
      modifies client`objects, client`route, client`policy, client`pending, client`weather, client`trace
      ensures Connected() && old(client.trace) <= client.trace
      ensures ok && Firm() ==>
                HasHpa(name, application, spec, client.State(), p)
                && Touches(old(client.State()), client.State(), {ProcessKey(HpaKind, name, spec, p)})
      ensures client.Clear() ==> ok
      ensures client.Clear() && !client.deferDeletion && IsCalm(old(client.objects), client.reports) && HasHpa(name, application, spec, old(client.State()), p) ==>
                client.State() == old(client.State())
    {
      hide Good, Client.Valid, History, Touches, Drift, Calmed;
      var k := ProcessKey(HpaKind, name, spec, p);
      NothingPending();
      ghost var mid;
      if p.maxReplicas > p.minReplicas {
        var v := Hpa(LabelsOf(application, spec), p.minReplicas, p.maxReplicas);
        ok, mid := client.Upsert(k, v);
        if ok && Firm() {
          CallTouches(old(client.State()), mid, client.Clear(), client.reports);
          PutTouches(old(client.State()), mid, k, Merged(mid.objects, k, v));
        }
      } else {
        ok, mid := client.Delete(k);
        if ok && Firm() {
          CallTouches(old(client.State()), mid, client.Clear(), client.reports);
          DropTouches(old(client.State()), mid, k, client.deferDeletion);
        }
      }
    }

    method RolloutProcess(spec: Spec, p: Process) returns (ok: bool, report: Report)
      requires Connected() && client.app.spec == spec && p in spec.processes && ValidSpec(spec) && !TearingDown(client.app.lifecycle)
      requires !client.deferDeletion ==> (spec.migration ==> spec.release in client.migrated)
      modifies client`objects, client`route, client`policy, client`pending, client`weather, client`trace
      ensures Connected() && old(client.trace) <= client.trace
      ensures ok && Firm() ==>
                Desired(name, application, spec, client.State(), p)
                && Touches(old(client.State()), client.State(), ProcessKeys(name, spec, p))
      ensures client.Clear() ==> ok && report == client.reports.of(NameOf(name, spec, p.name))
      ensures client.Clear() && !client.deferDeletion && IsCalm(old(client.objects), client.reports) && Desired(name, application, spec, old(client.State()), p) ==>
                client.State() == old(client.State())
    {
      hide Good, Client.Valid, Touches, History, HasDeployment, HasHpa;
      ghost var s0 := client.State();
      ok, report := RolloutDeployment(spec, p);
      if !ok {
        return;
      }
      ghost var s1 := client.State();
      if p.port > 0 {
        ok := RolloutService(spec, p);
        if !ok {
          return;
        }
      }
      ghost var s2 := client.State();
      ok := RolloutHpa(spec, p);
      if ok && Firm() {
        ProcessTouches(name, application, spec, p, s0, s1, s2, client.State());
      }
    }

    /** Every process in turn, adding up what is reported. */
    method RolloutProcesses(spec: Spec) returns (ok: bool, ready: int, failed: bool, message: string)
      requires Connected() && client.app.spec == spec && ValidSpec(spec) && !TearingDown(client.app.lifecycle)
      requires !client.deferDeletion ==> (spec.migration ==> spec.release in client.migrated)
      modifies client`objects, client`route, client`policy, client`pending, client`weather, client`trace
      ensures Connected() && old(client.trace) <= client.trace
      ensures ok && Firm() ==> AllDesired(name, application, spec, client.State(), |spec.processes|) && RolledFrom(old(client.State()), client.State())
      ensures client.Clear() ==> ok && ready == Total(name, spec, client.reports, |spec.processes|)
      ensures client.Clear() ==>
                var l := LastFailure(name, spec, client.reports, |spec.processes|); failed == l.Some? && message == if failed then l.value else ""
      ensures Settled(old(client.State()), spec) ==> client.State() == old(client.State())
    {
      hide Good, Client.Valid, Desired, Touches, RolledFrom;
      ok, ready, failed, message := true, 0, false, "";
      var i := 0;
      ghost var s0 := client.State();
      RolledSelf(s0);
      while i < |spec.processes|
        invariant 0 <= i <= |spec.processes| && Connected() && old(client.trace) <= client.trace
        invariant Firm() ==> AllDesired(name, application, spec, client.State(), i) && RolledFrom(old(client.State()), client.State())
        invariant client.Clear() ==> ready == Total(name, spec, client.reports, i)
        invariant client.Clear() ==> var l := LastFailure(name, spec, client.reports, i); failed == l.Some? && message == if failed then l.value else ""
        invariant Settled(old(client.State()), spec) ==> client.State() == old(client.State())
      {
        var p := spec.processes[i];
        ghost var before := client.State();
        var report;
        ok, report := RolloutProcess(spec, p);
        if !ok {
          return;
        }
        ready := ready + report.ready;
        if report.failed {
          failed, message := true, report.message;
        }
        if Firm() {
          NextDesired(name, application, spec, before, client.State(), i);
          TouchesRolled(before, client.State(), ProcessKeys(name, spec, p));
          RolledTransitive(s0, before, client.State());
        }
        i := i + 1;
      }
    }

    /** A failed read counts as not ready. */
    method ProcessReady(spec: Spec, p: Process) returns (ready: bool)
      requires Connected() && p in spec.processes
      modifies client`objects, client`route, client`policy, client`pending, client`weather, client`trace
      ensures Connected() && old(client.trace) <= client.trace
      ensures ready ==> SawReady(client.ctx, client.trace, |client.trace|, client.turn, spec, p)
      ensures !client.deferDeletion ==> Touches(old(client.State()), client.State(), {})
      ensures client.Clear() ==> client.State() == old(client.State()).(objects := Calmed(old(client.objects), client.reports))
      ensures client.Clear() && HasDeployment(name, application, spec, old(client.objects), p) ==> (ready <==> ReportsReady(name, spec, client.reports, p))
    {
      NothingPending();
      var ok, found := client.Get(ProcessKey(DeploymentKind, name, spec, p));
      ready := ok && found.Some? && found.value.Deployment? && !found.value.report.failed && found.value.report.ready >= p.minReplicas;
      hide Good, History, Touches, Drift;
      if !client.deferDeletion {
        DriftTouches(old(client.State()), client.State());
      }
      if ready {
        assert ReadyAt(client.ctx, client.trace[|client.trace| - 1], client.turn, spec, p);
      }
    }

    /** Ready only if every process was seen ready in this reconciliation. */
    method AllProcessesReady(spec: Spec) returns (ready: bool)
      requires Connected() && ValidSpec(spec)
      modifies client`objects, client`route, client`policy, client`pending, client`weather, client`trace
      ensures Connected() && old(client.trace) <= client.trace
      ensures ready ==> SawAllReady(client.ctx, client.trace, |client.trace|, client.turn, spec)
      ensures !client.deferDeletion ==> Touches(old(client.State()), client.State(), {})
      ensures client.Clear() ==> client.State() == old(client.State()).(objects := Calmed(old(client.objects), client.reports))
      ensures client.Clear() && AllDesired(name, application, spec, old(client.State()), |spec.processes|) ==> (ready <==> AllReady(name, spec, client.reports))
    {
      hide Good, Client.Valid, SawReady, Touches, Calmed, ReportsReady, HasService, HasHpa;
      TouchesNothing(client.State());
      ghost var start := client.State();
      for i := 0 to |spec.processes|
        invariant old(client.trace) <= client.trace && Connected()
        invariant forall j | 0 <= j < i :: SawReady(client.ctx, client.trace, |client.trace|, client.turn, spec, spec.processes[j])
        invariant !client.deferDeletion ==> Touches(start, client.State(), {})
        invariant client.Clear() ==> client.State() == start.(objects := if i == 0 then start.objects else Calmed(start.objects, client.reports))
        invariant client.Clear() && AllDesired(name, application, spec, start, |spec.processes|) ==>
                    forall j | 0 <= j < i :: ReportsReady(name, spec, client.reports, spec.processes[j])
      {
        ghost var before, sofar := client.State(), client.trace;
        var p := spec.processes[i];
        ready := ProcessReady(spec, p);
        if !client.deferDeletion {
          TouchesNeither(start, before, client.State());
        }
        CalmTwice(start.objects, client.reports);
        if client.Clear() && AllDesired(name, application, spec, start, |spec.processes|) {
          CalmKeeps(name, application, spec, start, client.reports, p);
        }
        if !ready {
          return;
        }
        forall j | 0 <= j < i ensures SawReady(client.ctx, client.trace, |client.trace|, client.turn, spec, spec.processes[j]) {
          SawReadyGrows(client.ctx, sofar, client.trace, |sofar|, client.turn, spec, spec.processes[j]);
        }
      }
      ready := true;
    }

    // -------------------------------------------------------------- the previous release

    /** In calm weather: at most one look at the cluster went by. */
    ghost predicate Looked(s: State)
      reads this, client
    {
      client.State() == s || client.State() == s.(objects := Calmed(s.objects, client.reports))
    }

    /** Routes back to the recorded active release, but only after seeing its service. */
    method RouteToActive(route: Route, status: Status) returns (ok: bool, available: bool, r: Route, st: Status)
      requires Connected()
      modifies client`objects, client`route, client`policy, client`pending, client`weather, client`trace
      ensures Connected() && old(client.trace) <= client.trace
      ensures !client.deferDeletion ==> Touches(old(client.State()), client.State(), {})
      ensures client.Clear() ==> ok && Looked(old(client.State()))
      ensures (available ==> ok) && (!available ==> r == Unrouted(route) && st == status)
      ensures ok ==> (available <==> Available(application, client.objects, status, route))
      ensures available ==> (r.backend, r.port) == Chosen(status, route)
      ensures ok && available ==>
                && status.active.Some? && r.backend.Some? && r.enabled && r.port > 0
                && r == Route(r.backend, r.port, true, route.hostname) && st == status.(backend := r.backend, port := r.port)
                && LeadsTo(client.State().(route := Some(r)), Labels(application, status.active.value))
      ensures ok && !client.deferDeletion && Backed(client.ctx, old(client.objects), status) ==> available && st == status
    {
      hide Good, Touches, History;
      NothingPending();
      ok, available, r, st := true, false, Unrouted(route), status;
      TouchesNothing(client.State());
      if status.active.None? {
        return;
      }
      var backend, port := status.backend, status.port;
      if backend.None? && route.enabled {
        backend, port := route.backend, route.port;
      }
      if backend.None? || port <= 0 {
        return;
      }
      var found;
      ok, found := client.Get(Key(ServiceKind, backend.value));
      if !client.deferDeletion {
        DriftTouches(old(client.State()), client.State());
      }
      if !ok {
        return;
      }
      if found.None? || !found.value.Service? || found.value.port != port || found.value.labels != Labels(application, status.active.value) {
        return;
      }
      available, r, st := true, Route(backend, port, true, route.hostname), status.(backend := backend, port := port);
    }

    /** A route and a status that may be written together: the route serves, and the status names what it leads to. */
    ghost predicate Publishable(r: Route, st: Status)
      reads this, client
    {
      && Routable(client.ctx, client.State(), client.promoting, r) && Flowing(client.ctx, client.objects, st, Some(r))
      && (r.enabled ==> Carrier(client.State().(route := Some(r))) == st.active)
    }

    lemma LeadPublishable(r: Route, st: Status)
      requires Connected() && !client.deferDeletion && client.promoting.None? && st.active == client.status.active && (client.ctx.Steady() && st.active.Some? ==> r.enabled)
      requires r.enabled ==> st.active.Some? && LeadsTo(client.State().(route := Some(r)), Labels(application, st.active.value))
      requires Flowing(client.ctx, client.objects, st, Some(r)) && (r.enabled ==> r.backend == st.backend)
      ensures Publishable(r, st)
    {
      hide Labelled, Gated, Ported, History;
      assert Remembered(client.status, client.promoted, client.migrated);
    }

    /** Keeps the previous release serving when it must be held, and otherwise leaves the idle route. */
    method Fallback(route: Route, status: Status, hold: bool, idle: Route) returns (ok: bool, available: bool, r: Route, st: Status)
      requires Connected() && client.promoting.None? && !idle.enabled && (hold ==> status.active.Some?)
      requires Inherits(status) && (!client.deferDeletion && client.ctx.Steady() && status.active.Some? ==> hold)
      modifies client`objects, client`route, client`policy, client`pending, client`weather, client`trace
      ensures Connected() && old(client.trace) <= client.trace && Inherits(st)
      ensures client.Clear() ==> ok && Looked(old(client.State()))
      ensures ok ==> r == HeldRoute(application, client.objects, status, route, hold, idle)
      ensures ok ==> st == HeldStatus(application, client.objects, status, route, hold)
      ensures ok ==> (available <==> !hold || Available(application, client.objects, status, route))
      ensures ok && !client.deferDeletion ==> Touches(old(client.State()), client.State(), {}) && Publishable(r, st)
      ensures ok ==> st == status.(backend := st.backend, port := st.port)
      ensures ok && r.enabled ==> status.active.Some? && LeadsTo(client.State().(route := Some(r)), Labels(application, status.active.value))
      ensures ok && hold ==> (r.enabled <==> available)
      ensures !hold ==> ok && available && r == idle && st == status
    {
      if !hold {
        ok, available, r, st := true, true, idle, status;
        TouchesNothing(client.State());
        if !client.deferDeletion {
          LeadPublishable(r, st);
        }
        hide Good;
        return;
      }
      hide Good, Client.Valid, Touches, Routable, Flowing, LeadsTo, Publishable, Carrier;
      ghost var s0 := client.State();
      FlowsNow();
      ok, available, r, st := RouteToActive(route, status);
      if ok && !client.deferDeletion {
        HeldFlows(s0, status, r, st, available);
        LeadPublishable(r, st);
      }
    }

    /** Under the promise, with a recorded active release, there is traffic now. */
    lemma FlowsNow()
      requires Connected()
      ensures !client.deferDeletion && client.ctx.Steady() && client.status.active.Some? ==> Backed(client.ctx, client.objects, client.status)
    {
      hide Labelled, Gated, Ported, RouteServes, Remembered, History;
    }

    /** Routing back under the promise finds the service, and the status keeps naming it. */
    lemma HeldFlows(s0: State, status: Status, r: Route, st: Status, available: bool)
      requires !client.deferDeletion && Inherits(status) && Touches(s0, client.State(), {})
      requires client.ctx.Steady() && client.status.active.Some? ==> Backed(client.ctx, s0.objects, client.status)
      requires Backed(client.ctx, s0.objects, status) ==> available && st == status
      requires available ==> r.enabled && st.active == status.active
      requires !available ==> st == status
      ensures Flowing(client.ctx, client.objects, st, Some(r)) && (client.ctx.Steady() && st.active.Some? ==> r.enabled)
    {
      hide Touches;
      BackedStays(client.ctx, s0, client.State(), status);
    }

    /** The local status still carries what is stored about the active release and the migration. */
    ghost predicate Inherits(status: Status)
      reads this, client
    {
      && status.active == client.status.active
      && (!client.deferDeletion && client.ctx.Steady() ==> status.backend == client.status.backend && status.port == client.status.port)
      && (client.status.migrated == Some(client.app.spec.release) ==> status.migrated == client.status.migrated)
      && (!client.deferDeletion && status.migrated.Some? ==> status.migrated.value in client.migrated)
    }

    // -------------------------------------------------------------- the migration gate

    /** Ready at once without a migration or with a recorded success; otherwise the job is submitted first, and decides. */
    method EnsureMigration(spec: Spec, status: Status) returns (ok: bool, ready: bool, failed: bool, message: string, st: Status)
      requires Connected() && client.app.spec == spec && Inherits(status) && status.migrated == client.status.migrated
      modifies client`objects, client`route, client`policy, client`pending, client`weather, client`trace
      modifies client`migrated
      ensures Connected() && old(client.trace) <= client.trace && Inherits(st)
      ensures ok && ready && !client.deferDeletion && spec.migration ==> spec.release in client.migrated
      ensures st == if ok && ready then PastMigration(spec, status) else status
      ensures ok && Firm() ==> RolledFrom(old(client.State()), client.State())
      ensures MigrationDone(spec, status) ==> ok && ready && client.State() == old(client.State()) && client.trace == old(client.trace)
      ensures !MigrationDone(spec, status) && (ok || client.Clear()) ==>
                Submits(client.trace, |old(client.trace)|, MigrationOf(name, spec), MigrationOf(name, spec) !in old(client.objects))
      ensures client.Clear() && !MigrationDone(spec, status) ==>
                var k := MigrationOf(name, spec).name;
                ok && ready == client.reports.ends(k).Succeeded? && failed == client.reports.ends(k).Failed?
                && message == if failed then client.reports.says(k) else ""
    {
      hide Good, Client.Valid, Drift, Touches, Submits, RolledFrom;
      ok, ready, failed, message, st := true, true, false, "", status;
      RolledSelf(client.State());
      if !spec.migration {
        return;
      }
      if status.migrated == Some(spec.release) {
        return;
      }
      ready := false;
      var k := MigrationOf(name, spec);
      var v := Job(LabelsOf(application, spec), spec, Outcome.Pending, "");
      NothingPending();
      ghost var s0 := client.State();
      ghost var mid;
      ok, mid := client.Upsert(k, v);
      if !ok {
        return;
      }
      ghost var s1 := client.State();
      SubmitsFresh(s0, mid, client.trace, |old(client.trace)|, k, v);
      if Firm() {
        CallTouches(s0, mid, client.Clear(), client.reports);
        PutTouches(s0, mid, k, Merged(mid.objects, k, v));
        TouchesRolled(s0, s1, {k});
      }
      ghost var sofar := client.trace;
      ok, ready, failed, message := ObserveJob(spec);
      if Firm() {
        RolledTransitive(s0, s1, client.State());
      }
      SubmitsStill(sofar, client.trace, |old(client.trace)|, k, k !in s0.objects);
      if ok && ready {
        st := status.(migrated := Some(spec.release));
      }
    }

    method ObserveJob(spec: Spec) returns (ok: bool, succeeded: bool, failed: bool, message: string)
      requires Connected()
      modifies client`objects, client`route, client`policy, client`pending, client`weather, client`trace
      modifies client`migrated
      ensures Connected() && old(client.trace) <= client.trace && old(client.migrated) <= client.migrated
      ensures succeeded ==> ok && spec.release in client.migrated
      ensures Firm() ==> RolledFrom(old(client.State()), client.State())
      ensures client.Clear() ==> ok
      ensures client.Clear() && MigrationOf(name, spec) in old(client.objects) && old(client.objects)[MigrationOf(name, spec)].Job? ==>
                var k := MigrationOf(name, spec).name;
                succeeded == client.reports.ends(k).Succeeded? && failed == client.reports.ends(k).Failed?
                && message == if failed then client.reports.says(k) else ""
    {
      hide Good, History, Touches;
      NothingPending();
      var found;
      ok, found := client.Get(MigrationOf(name, spec));
      succeeded, failed, message := false, false, "";
      if Firm() {
        CallTouches(old(client.State()), client.State(), client.Clear(), client.reports);
        TouchesRolled(old(client.State()), client.State(), {});
      }
      if ok && found.Some? && found.value.Job? {
        match found.value.outcome {
          case Succeeded =>
            succeeded := true;
            client.SawMigrated(spec.release);
          case Failed =>
            failed, message := true, found.value.message;
          case Pending =>
        }
      }
    }

    // -------------------------------------------------------------- writing the outcome

    /** Calm weather, and nobody told the operator to stop. */
    predicate Running()
      reads this, client
    {
      client.Clear() && !client.stopping
    }

    /** Route before status: the recorded active release is never ahead of the traffic. */
    method Publish(r: Route, st: Status) returns (ok: bool)
      requires Connected() && Inherits(st.(active := client.status.active, backend := client.status.backend, port := client.status.port))
      requires !(st.phase.Suspended? || st.phase.Retaining? || st.phase.Deleted?)
      requires client.ctx.Steady() && client.status.active.Some? ==> st.active.Some?
      requires !client.deferDeletion ==> Publishable(r, st) && (st.active.Some? ==> st.active.value in client.promoted)
      modifies client`objects, client`route, client`policy, client`pending, client`weather, client`trace
      modifies client`status, client`ahead, client`stopped
      ensures Connected() && old(client.trace) <= client.trace
      ensures ok && !client.deferDeletion ==> Touches(old(client.State()).(route := Some(r), status := st), client.State(), {})
      ensures old(Running()) ==>
                ok && Running()
                && client.State() == old(client.State()).(objects := Calmed(old(client.objects), client.reports), route := Some(r), status := st)
      ensures old(client.Clear()) && client.stopping ==>
                !ok && client.stopped
                && client.State() == old(client.State()).(objects := Calmed(old(client.objects), client.reports), route := Some(r))
      ensures client.status == old(client.status) || client.status == st
    {
      NothingPending();
      ghost var s0 := client.State();
      ghost var mid, last;
      hide Carrier, Aimed, History, Truthful, Labelled, Gated, Ported, Backed;
      ok, mid := client.UpsertHTTPRoute(r);
      if !ok {
        return;
      }
      NothingPending();
      ghost var s1 := client.State();
      if !client.deferDeletion {
        DriftTouches(s0, mid);
        FlowingStays(client.ctx, s0, mid, st, Some(r));
        CarrierStays(s0, mid, r);
      }
      CalmTwice(s0.objects, client.reports);
      hide Good, Touches, Flowing;
      ok, last := client.UpdatePaaSAppStatus(st);
      if ok && !client.deferDeletion {
        PublishTouches(s0, mid, s1, last, client.State(), r, st);
      }
    }

    // -------------------------------------------------------------- deleting workloads

    method DeleteOne(k: Key, ghost keys: set<Key>, staleOnly: bool) returns (ok: bool)
      requires Connected() && (TearingDown(client.app.lifecycle) ==> client.route.None?)
      requires !client.deferDeletion ==> Anchored(client.ctx, client.State(), staleOnly)
      requires k in keys && OnlyStale(client.State(), keys, staleOnly)
      modifies client`objects, client`route, client`policy, client`pending, client`weather, client`trace
      ensures Connected() && old(client.trace) <= client.trace && Recedes(old(client.State()), client.State()) && OnlyStale(client.State(), keys, staleOnly)
      ensures !client.deferDeletion ==> Anchored(client.ctx, client.State(), staleOnly)
      ensures client.Clear() ==>
                ok && client.State() == Deletion(old(client.State()).(objects := Calmed(old(client.objects), client.reports)), k, true, client.deferDeletion)
    {
      hide Recedes, Anchored, OnlyStale, Drift, History;
      ghost var before := client.State();
      ghost var mid;
      if !client.deferDeletion {
        AnchoredRemovable(client.ctx, before, k, keys, staleOnly);
      }
      ok, mid := client.Delete(k);
      RecedesSelf(before);
      DeletedRecedes(client.ctx, before, before, mid, client.State(), k, ok, client.deferDeletion, keys, staleOnly);
    }

    /** Requests the deletion of all these keys, in any order. */
    method DeleteAll(keys: set<Key>, staleOnly: bool) returns (ok: bool)
      requires Connected() && (TearingDown(client.app.lifecycle) ==> client.route.None?)
      requires !client.deferDeletion ==> Anchored(client.ctx, client.State(), staleOnly)
      requires OnlyStale(client.State(), keys, staleOnly)
      modifies client`objects, client`route, client`policy, client`pending, client`weather, client`trace
      ensures Connected() && old(client.trace) <= client.trace && Recedes(old(client.State()), client.State())
      ensures !client.deferDeletion ==> Anchored(client.ctx, client.State(), staleOnly)
      ensures client.Clear() ==> ok
      ensures client.Clear() && IsCalm(old(client.objects), client.reports) ==>
                client.State() == Requested(old(client.State()), client.deferDeletion, client.reports, keys)
    {
      hide Connected, Recedes, Anchored, OnlyStale, IsCalm, Requested, Deletion;
      ghost var s0 := client.State();
      ok := true;
      var rest := keys;
      RecedesSelf(s0);
      RequestedNone(s0, client.deferDeletion, client.reports);
      assert keys - rest == {};
      while rest != {}
        invariant rest <= keys && old(client.trace) <= client.trace && Connected() && Recedes(s0, client.State()) && OnlyStale(client.State(), rest, staleOnly)
        invariant !client.deferDeletion ==> Anchored(client.ctx, client.State(), staleOnly)
        invariant client.Clear() && IsCalm(s0.objects, client.reports) ==>
                    client.State() == Requested(s0, client.deferDeletion, client.reports, keys - rest)
        decreases |rest|
      {
        var k :| k in rest;
        ghost var before := client.State();
        RecedesRoute(s0, before);
        ok := DeleteOne(k, rest, staleOnly);
        RecedesTransitive(s0, before, client.State());
        if !ok {
          return;
        }
        OnlyFewer(client.State(), rest, rest - {k}, staleOnly);
        if client.Clear() && IsCalm(s0.objects, client.reports) {
          RequestedNext(s0, before, client.State(), client.deferDeletion, client.reports, keys - rest, k);
          assert keys - (rest - {k}) == keys - rest + {k};
        }
        rest := rest - {k};
      }
      assert keys - rest == keys;
    }

    /** The matching objects of one kind that are still listed. */
    method ListMatching(kind: Kind, staleOnly: bool) returns (ok: bool, matching: set<Key>)
      requires Connected()
      modifies client`objects, client`route, client`policy, client`pending, client`weather, client`trace
      ensures Connected() && old(client.trace) <= client.trace && Recedes(old(client.State()), client.State())
      ensures !client.deferDeletion && Anchored(client.ctx, old(client.State()), staleOnly) ==> Anchored(client.ctx, client.State(), staleOnly)
      ensures ok ==> matching == Doomed(application, client.State(), staleOnly, {kind})
      ensures client.Clear() ==> ok && client.State() == old(client.State()).(objects := Calmed(old(client.objects), client.reports))
    {
      ghost var s0 := client.State();
      NothingPending();
      hide Client.Valid, Drift, Recedes, Anchored, Doomed, Calmed;
      var found;
      ok, found := client.List(kind, application);
      matching := set k | k in found && k in client.objects && (!staleOnly || client.objects[k].labels.release != client.app.spec.release);
      if ok {
        ListedDoomed(application, client.State(), staleOnly, kind, found);
      }
      RecedesDrift(s0, client.State());
      if !client.deferDeletion && Anchored(client.ctx, s0, staleOnly) {
        AnchoredStays(client.ctx, s0, client.State(), staleOnly);
      }
    }

    method DeleteKind(kind: Kind, staleOnly: bool) returns (ok: bool)
      requires Connected() && (TearingDown(client.app.lifecycle) ==> client.route.None?)
      requires !client.deferDeletion ==> Anchored(client.ctx, client.State(), staleOnly)
      modifies client`objects, client`route, client`policy, client`pending, client`weather, client`trace
      ensures Connected() && old(client.trace) <= client.trace && Recedes(old(client.State()), client.State())
      ensures !client.deferDeletion ==> Anchored(client.ctx, client.State(), staleOnly)
      ensures client.Clear() ==>
                ok && client.State() == Requested(old(client.State()), client.deferDeletion, client.reports, Doomed(application, old(client.State()), staleOnly, {kind}))
    {
      hide Connected, Recedes, Anchored, Requested;
      ghost var s0 := client.State();
      var todo;
      ok, todo := ListMatching(kind, staleOnly);
      ghost var s1 := client.State();
      RecedesRoute(s0, s1);
      if !ok {
        return;
      }
      DoomedStale(application, s1, staleOnly, kind);
      ok := DeleteAll(todo, staleOnly);
      RecedesTransitive(s0, s1, client.State());
      if client.Clear() {
        CalmTwice(s0.objects, client.reports);
        RequestedAfterCalm(application, s0, s1, client.deferDeletion, client.reports, staleOnly, {kind});
      }
    }

    /** Is any matching object still listed? */
    method MatchingWorkloadsExist(staleOnly: bool) returns (ok: bool, exist: bool)
      requires Connected()
      modifies client`objects, client`route, client`policy, client`pending, client`weather, client`trace
      ensures Connected() && old(client.trace) <= client.trace && Recedes(old(client.State()), client.State())
      ensures !client.deferDeletion && Anchored(client.ctx, old(client.State()), staleOnly) ==> Anchored(client.ctx, client.State(), staleOnly)
      ensures ok && !exist ==> Doomed(application, client.State(), staleOnly, AllKinds()) == {}
      ensures client.Clear() ==> ok && client.State() == old(client.State()).(objects := Calmed(old(client.objects), client.reports))
      ensures client.Clear() ==> (exist <==> Doomed(application, old(client.State()), staleOnly, AllKinds()) != {})
    {
      hide Connected, Recedes, Anchored, Doomed;
      ghost var s0 := client.State();
      ok, exist := true, false;
      RecedesSelf(s0);
      NoKinds(application, s0, staleOnly);
      for i := 0 to |KINDS|
        invariant old(client.trace) <= client.trace && Connected() && Recedes(s0, client.State())
        invariant !client.deferDeletion && Anchored(client.ctx, s0, staleOnly) ==> Anchored(client.ctx, client.State(), staleOnly)
        invariant Doomed(application, client.State(), staleOnly, Kinds(i)) == {}
        invariant client.Clear() ==> client.State() == if i == 0 then s0 else s0.(objects := Calmed(s0.objects, client.reports))
      {
        ghost var before := client.State();
        var matching;
        ok, matching := ListMatching(KINDS[i], staleOnly);
        RecedesTransitive(s0, before, client.State());
        CalmTwice(s0.objects, client.reports);
        if !ok {
          return;
        }
        DoomedRecedes(application, before, client.State(), staleOnly, i);
        CalmDoomed(application, s0, client.reports, staleOnly, AllKinds());
        if matching != {} {
          exist := true;
          return;
        }
      }
      CalmDoomed(application, s0, client.reports, staleOnly, AllKinds());
    }

    /** Requests every matching deletion, then looks again: deletions may take effect only later. */
    method DeleteWorkloads(staleOnly: bool) returns (ok: bool, remaining: bool)
      requires Connected() && (TearingDown(client.app.lifecycle) ==> client.route.None?)
      requires !client.deferDeletion ==> Anchored(client.ctx, client.State(), staleOnly)
      modifies client`objects, client`route, client`policy, client`pending, client`weather, client`trace
      ensures Connected() && old(client.trace) <= client.trace && Recedes(old(client.State()), client.State())
      ensures !client.deferDeletion ==> Anchored(client.ctx, client.State(), staleOnly)
      ensures ok && !remaining ==> Doomed(application, client.State(), staleOnly, AllKinds()) == {}
      ensures client.Clear() ==>
                ok && client.State() == Requested(old(client.State()), client.deferDeletion, client.reports, Doomed(application, old(client.State()), staleOnly, AllKinds()))
      ensures client.Clear() ==> (remaining <==> client.deferDeletion && Doomed(application, old(client.State()), staleOnly, AllKinds()) != {})
    {
      hide Connected, Recedes, Anchored, Doomed, Requested;
      ghost var s0 := client.State();
      ok, remaining := true, true;
      RecedesSelf(s0);
      for i := 0 to |KINDS|
        invariant old(client.trace) <= client.trace && Connected() && Recedes(s0, client.State())
        invariant !client.deferDeletion ==> Anchored(client.ctx, client.State(), staleOnly)
        invariant client.Clear() ==> client.State() == RequestedUpTo(application, s0, client.deferDeletion, client.reports, staleOnly, i)
      {
        ghost var before := client.State();
        RecedesRoute(s0, before);
        ok := DeleteKind(KINDS[i], staleOnly);
        RecedesTransitive(s0, before, client.State());
        if !ok {
          return;
        }
        RequestedKinds(application, s0, client.deferDeletion, client.reports, staleOnly, i);
      }
      ghost var after := client.State();
      ok, remaining := MatchingWorkloadsExist(staleOnly);
      RecedesTransitive(s0, after, client.State());
      RequestedLeaves(application, s0, client.deferDeletion, client.reports, staleOnly);
    }

    // -------------------------------------------------------------- an active application

    /** Degrades to the previous release, or to nothing, when the spec changed under the same release. */
    method RefuseConflict(route: Route, status: Status, now: int) returns (ok: bool)
      requires Connected() && client.promoting.None? && Inherits(status)
      modifies client`objects, client`route, client`policy, client`pending, client`weather, client`trace
      modifies client`status, client`ahead, client`stopped
      ensures Connected() && old(client.trace) <= client.trace
      ensures ok && !client.deferDeletion ==> Held(application, old(client.status), now, client.State())
      ensures old(Running()) ==>
                ok && Running() && client.State() == Refusing(application, client.reports, old(client.State()), route, status, now)
    {
      hide Good, Client.Valid, Touches, Publishable, Held, LeadsTo;
      ghost var s0 := client.State();
      var available, r, st;
      ok, available, r, st := Fallback(route, status, status.active.Some?, Unrouted(route));
      if !ok {
        return;
      }
      var reason := if available then ReleaseIdentityConflict else PreviousReleaseUnavailable;
      var told := st.(phase := Phase.Degraded, condition := Some(SetCondition(st.condition, false, reason, "", client.app.generation, now)));
      PublishableTold(r, st, told);
      ghost var s1 := client.State();
      ok := Hold(r, told, now);
      if old(Running()) {
        RefusingCalmed(application, client.reports, s0, s1, route, status, now);
      }
    }

    /** Phase and condition do not matter to what may be published. */
    lemma PublishableTold(r: Route, st: Status, told: Status)
      requires told == st.(phase := told.phase, condition := told.condition, ready := told.ready)
      ensures Publishable(r, told) <==> Publishable(r, st)
      ensures Inherits(told) <==> Inherits(st)
    {}

    /** While the migration runs or has failed, the previous release keeps serving. */
    method AwaitMigration(route: Route, status: Status, failed: bool, message: string, now: int) returns (ok: bool)
      requires Connected() && client.promoting.None? && Inherits(status)
      modifies client`objects, client`route, client`policy, client`pending, client`weather, client`trace
      modifies client`status, client`ahead, client`stopped
      ensures Connected() && old(client.trace) <= client.trace
      ensures ok && !client.deferDeletion ==> Held(application, old(client.status), now, client.State())
      ensures old(Running()) ==>
                ok && Running()
                && client.State() == Migrating(application, client.reports, old(client.State()), route, status, failed, message, now)
    {
      hide Good, Touches, Publishable, Held, LeadsTo, History, Aimed;
      ghost var s0 := client.State();
      var available, r, st;
      ok, available, r, st := Fallback(route, status, status.active.Some? && !client.app.lifecycle.Resuming?, Unrouted(route));
      if !ok {
        return;
      }
      var told := Awaited(client.app, st, available, failed, message, now);
      AwaitedTells(client.app, client.status, st, r, available, failed, message, now);
      PublishableTold(r, st, told);
      ghost var s1 := client.State();
      ok := Hold(r, told, now);
      if old(Running()) {
        MigratingCalmed(application, client.reports, s0, s1, route, status, failed, message, now);
      }
    }

    /** While the candidate is not ready, the previous release keeps serving. */
    method AwaitRollout(route: Route, status: Status, ready: int, failed: bool, message: string, now: int) returns (ok: bool)
      requires Connected() && client.promoting.None? && Inherits(status)
      modifies client`objects, client`route, client`policy, client`pending, client`weather, client`trace
      modifies client`status, client`ahead, client`stopped
      ensures Connected() && old(client.trace) <= client.trace
      ensures ok && !client.deferDeletion ==> Held(application, old(client.status), now, client.State())
      ensures old(Running()) ==>
                ok && Running()
                && client.State() == RollingOut(name, application, client.reports, old(client.State()), route, status, ready, failed, message, now)
    {
      hide Good, Client.Valid, Touches, Routable, Flowing, Held, Available, Calmed, Chosen;
      var spec := client.app.spec;
      var late := TimedOut(spec, status, now);
      var phase := if failed || late then Phase.Degraded else Phase.Deploying;
      var reason := if failed then RolloutFailed else if late then RolloutTimeout else Progressing;
      var text := if failed then message else "";
      var st := status.(
        phase := phase, ready := if failed || late then status.ready else ready,
        condition := Some(SetCondition(status.condition, false, reason, text, client.app.generation, now)));
      var idle := Route(Some(NameOf(name, spec, spec.route)), PortOf(spec, spec.route), false, route.hostname);
      ok := HoldOr(route, st, idle, now);
      SameRecord(application, old(client.objects), status, st, route);
    }

    /** In calm weather: what holding the previous release unless resuming leaves. */
    ghost function HeldOr(s: State, route: Route, told: Status, idle: Route, now: int): State
      reads this, client
    {
      var hold := Holds(s.app, told);
      var available := !hold || Available(application, s.objects, told, route);
      s.(objects := Calmed(s.objects, client.reports), route := Some(HeldRoute(application, s.objects, told, route, hold, idle)),
         status := OrMissing(s.app, HeldStatus(application, s.objects, told, route, hold), available, now))
    }

    lemma HeldOrCalmed(a: State, b: State, route: Route, told: Status, idle: Route, now: int)
      requires b == a || b == a.(objects := Calmed(a.objects, client.reports))
      ensures HeldOr(b, route, told, idle, now) == HeldOr(a, route, told, idle, now)
    {
      hide Available, Calmed;
      AvailableCalmed(application, a.objects, client.reports, told, route);
      CalmTwice(a.objects, client.reports);
    }

    /** Holds the previous release unless resuming; its absence overrides what the status would have said. */
    method HoldOr(route: Route, status: Status, idle: Route, now: int) returns (ok: bool)
      requires Connected() && client.promoting.None? && Inherits(status) && !idle.enabled
      requires Tells(client.app, client.status.(active := None), status.(active := None), idle, now)
      requires status.condition.value.reason != PreviousReleaseUnavailable
      modifies client`objects, client`route, client`policy, client`pending, client`weather, client`trace
      modifies client`status, client`ahead, client`stopped
      ensures Connected() && old(client.trace) <= client.trace
      ensures ok && !client.deferDeletion ==> Held(application, old(client.status), now, client.State())
      ensures old(Running()) ==>
                ok && Running() && client.State() == HeldOr(old(client.State()), route, status, idle, now)
    {
      hide Good, Touches, Publishable, Held, LeadsTo, History, Aimed;
      ghost var s0 := client.State();
      var available, r, st;
      ok, available, r, st := Fallback(route, status, status.active.Some? && !client.app.lifecycle.Resuming?, idle);
      if !ok {
        return;
      }
      var told := if available then st else
        st.(phase := Phase.Degraded,
            condition := Some(SetCondition(st.condition, false, PreviousReleaseUnavailable, "", client.app.generation, now)));
      PublishableTold(r, st, told);
      ghost var s1 := client.State();
      ok := Hold(r, told, now);
      if old(Running()) {
        HeldOrCalmed(s0, s1, route, status, idle, now);
      }
    }

    /** Publishes an outcome other than ready. */
    method Hold(r: Route, st: Status, now: int) returns (ok: bool)
      requires Connected() && Inherits(st) && Tells(client.app, client.status, st, r, now)
      requires !client.deferDeletion ==> Publishable(r, st)
      requires r.enabled ==> LeadsTo(client.State().(route := Some(r)), Labels(application, st.active.value))
      modifies client`objects, client`route, client`policy, client`pending, client`weather, client`trace
      modifies client`status, client`ahead, client`stopped
      ensures Connected() && old(client.trace) <= client.trace
      ensures ok && !client.deferDeletion ==> Held(application, old(client.status), now, client.State())
      ensures old(Running()) ==>
                ok && Running()
                && client.State() == old(client.State()).(objects := Calmed(old(client.objects), client.reports), route := Some(r), status := st)
    {
      hide Good, Publishable, History, Touches, LeadsTo, Aimed;
      ghost var s0 := client.State();
      KnownActive();
      ok := Publish(r, st);
      if ok && !client.deferDeletion {
        TouchesSame(s0.(route := Some(r), status := st), client.State());
        LeadsStill(s0, s0.(route := Some(r), status := st), client.State(), Labels(application, if r.enabled then st.active.value else ""));
      }
    }

    /** A recorded active release was promoted. */
    lemma KnownActive()
      requires Connected()
      ensures !client.deferDeletion && client.status.active.Some? ==> client.status.active.value in client.promoted
    {
      hide Labelled, Gated, Ported, RouteServes, Flowing, History, Aimed;
    }

    /** Promotes the release: traffic first, then the record. */
    method Complete(route: Route, status: Status, ready: int, now: int) returns (ok: bool)
      requires Connected() && Inherits(status) && ValidSpec(client.app.spec)
      requires SawAllReady(client.ctx, client.trace, |client.trace|, client.turn, client.app.spec)
      requires !client.deferDeletion ==> AllDesired(name, application, client.app.spec, client.State(), |client.app.spec.processes|)
      modifies client`objects, client`route, client`policy, client`pending, client`weather, client`trace
      modifies client`status, client`promoted, client`promoting, client`ahead, client`stopped
      ensures Connected() && old(client.trace) <= client.trace
      ensures ok && !client.deferDeletion ==> client.status.phase.Ready? && Anchored(client.ctx, client.State(), true)
      ensures old(Running()) ==>
                ok && Running() && client.State() == Promoted(name, old(client.State()), client.reports, route.hostname, status, ready, now)
      ensures old(client.Clear()) && client.stopping ==>
                !ok && client.status == old(client.status) && client.app.spec.release in client.promoted
                && client.route == Some(RouteOf(name, client.app.spec, route.hostname)) && client.migrated == old(client.migrated)
    {
      hide Good, History, SawAllReady, Aimed, AllDesired, Touches, ValidSpec, Anchored, Publishable, Calmed;
      var spec := client.app.spec;
      var r := Route(Some(NameOf(name, spec, spec.route)), RoutePort(spec), true, route.hostname);
      var st := Completed(name, spec, status, ready, client.app.generation, now);
      ghost var s0 := client.State();
      client.Promote(spec);
      ghost var s1 := client.State();
      if !client.deferDeletion {
        PromotionServes(s0, r, st, status);
      }
      ok := Publish(r, st);
      if ok && !client.deferDeletion {
        TouchesSame(s1.(route := Some(r), status := st), client.State());
        PublishedAnchors(client.ctx, s1, client.State(), r, st);
      }
    }

    lemma PromotionServes(s0: State, r: Route, st: Status, status: Status)
      requires Connected() && !client.deferDeletion && ValidSpec(client.app.spec)
      requires client.State() == s0.(promoted := s0.promoted + {client.app.spec.release}) && client.promoting == Some(client.app.spec)
      requires AllDesired(name, application, client.app.spec, s0, |client.app.spec.processes|)
      requires r == RouteOf(name, client.app.spec, r.hostname) && r.port > 0
      requires st.active == Some(client.app.spec.release) && st.backend == r.backend && st.port == r.port
      ensures Publishable(r, st) && IsCurrent(client.State(), r.backend) && st.active.value in client.promoted
    {
      hide Good, History, Aimed, HasDeployment, HasHpa, ValidSpec;
      var spec, s1 := client.app.spec, client.State();
      forall i | 0 <= i < |spec.processes| ensures Desired(name, application, spec, s1, spec.processes[i]) {
        assert Desired(name, application, spec, s0, spec.processes[i]);
        SameObjectsDesired(name, application, spec, s0, s1, spec.processes[i]);
      }
      hide AllDesired, Desired;
      DesiredServes(client.ctx, name, application, spec, s1);
    }

    /** Deletes what older releases left behind. */
    method CleanupSuperseded() returns (ok: bool)
      requires Connected() && !TearingDown(client.app.lifecycle)
      requires !client.deferDeletion ==> Anchored(client.ctx, client.State(), true)
      modifies client`objects, client`route, client`policy, client`pending, client`weather, client`trace
      ensures Connected() && old(client.trace) <= client.trace
      ensures client.Clear() ==> ok && client.State() == Cleaned(application, old(client.State()), client.deferDeletion, client.reports)
    {
      var remaining;
      ok, remaining := DeleteWorkloads(true);
    }

    /** Is the stored state already serving the current release? Only then may older releases be cleaned up. */
    predicate IsServing(status: Status, found: bool, route: Route)
      reads client
    {
      AlreadyServing(name, client.app.spec, status, found, route)
    }

    /** Calm weather, and every process of the stored spec reports ready. */
    ghost predicate Healthy()
      reads this, client
    {
      Running() && AllReady(name, client.app.spec, client.reports)
    }

    /** The same, but the operator will stop right after its next route write. */
    ghost predicate CutShort()
      reads this, client
    {
      client.Clear() && client.stopping && AllReady(name, client.app.spec, client.reports)
    }

    /** The route leads to the stored spec's release, which was promoted, and the status was not written. */
    ghost predicate RoutedOnly(before: Status, hostname: string)
      reads this, client
    {
      client.status == before && client.route == Some(RouteOf(name, client.app.spec, hostname)) && client.app.spec.release in client.promoted
    }

    /** Promotion and, if the release was being served already, cleaning up. */
    method Finish(route: Route, status: Status, ready: int, serving: bool, now: int) returns (ok: bool)
      requires Connected() && Inherits(status) && ValidSpec(client.app.spec) && !TearingDown(client.app.lifecycle)
      requires SawAllReady(client.ctx, client.trace, |client.trace|, client.turn, client.app.spec)
      requires !client.deferDeletion ==> AllDesired(name, application, client.app.spec, client.State(), |client.app.spec.processes|)
      modifies client`objects, client`route, client`policy, client`pending, client`weather, client`trace
      modifies client`status, client`promoted, client`promoting, client`ahead, client`stopped
      ensures Connected() && old(client.trace) <= client.trace
      ensures ok && !client.deferDeletion ==> client.status.phase.Ready?
      ensures old(Running()) ==>
                && ok && Running()
                && var p := Promoted(name, old(client.State()), client.reports, route.hostname, status, ready, now);
                   client.State() == if serving then Cleaned(application, p, client.deferDeletion, client.reports) else p
      ensures old(client.Clear()) && client.stopping ==>
                !ok && RoutedOnly(old(client.status), route.hostname) && client.migrated == old(client.migrated)
    {
      hide Connected, SawAllReady, AllDesired, ValidSpec, Promoted, Cleaned, Anchored;
      ok := Complete(route, status, ready, now);
      if ok && serving {
        ok := CleanupSuperseded();
      }
    }

    /** Rolls every process out, and unless one has failed asks whether all are ready. */
    method TryCandidate(spec: Spec) returns (ok: bool, allReady: bool, ready: int, failed: bool, message: string, ghost rolled: State)
      requires Connected() && client.app.spec == spec && ValidSpec(spec) && !TearingDown(client.app.lifecycle)
      requires !client.deferDeletion ==> (spec.migration ==> spec.release in client.migrated)
      modifies client`objects, client`route, client`policy, client`pending, client`weather, client`trace
      ensures Connected() && old(client.trace) <= client.trace
      ensures ok && allReady ==>
                && SawAllReady(client.ctx, client.trace, |client.trace|, client.turn, spec)
                && (!client.deferDeletion ==> AllDesired(name, application, spec, client.State(), |spec.processes|))
      ensures client.Clear() ==>
                && ok && RolledFrom(old(client.State()), rolled) && AllDesired(name, application, spec, rolled, |spec.processes|)
                && (client.State() == rolled || client.State() == rolled.(objects := Calmed(rolled.objects, client.reports)))
                && (allReady <==> AllReady(name, spec, client.reports)) && ready == Total(name, spec, client.reports, |spec.processes|)
                && var l := LastFailure(name, spec, client.reports, |spec.processes|); failed == l.Some? && message == if failed then l.value else ""
      ensures client.Clear() && allReady ==> client.State() == rolled.(objects := Calmed(rolled.objects, client.reports))
      ensures Settled(old(client.State()), spec) ==> rolled == old(client.State())
    {
      hide Connected, SawAllReady, Desired, Touches, AllReady, LastFailure, Total;
      allReady := false;
      ok, ready, failed, message := RolloutProcesses(spec);
      rolled := client.State();
      if !ok {
        return;
      }
      if !failed {
        allReady := AllProcessesReady(spec);
        if !client.deferDeletion {
          AllDesiredStays(name, application, spec, rolled, client.State());
        }
      } else if client.Clear() {
        FailedNotReady(name, spec, client.reports);
      }
    }

    /** Rolls the candidate out; promotes it once every process is ready, and cleans up one reconciliation later. */
    method RolloutRelease(route: Route, found: bool, status: Status, now: int) returns (ok: bool, ghost rolled: State)
      requires Connected() && client.promoting.None? && Inherits(status) && ValidSpec(client.app.spec) && !TearingDown(client.app.lifecycle)
      requires !client.deferDeletion && client.app.spec.migration ==> client.app.spec.release in client.migrated
      modifies client`objects, client`route, client`policy, client`pending, client`weather, client`trace
      modifies client`status, client`promoted, client`promoting, client`ahead, client`stopped
      ensures Connected() && old(client.trace) <= client.trace
      ensures ok && !client.deferDeletion && !client.status.phase.Ready? ==> Held(application, old(client.status), now, client.State())
      ensures old(Healthy()) ==>
                && ok && Running() && RolledFrom(old(client.State()), rolled)
                && AllDesired(name, application, client.app.spec, rolled, |client.app.spec.processes|)
                && (old(Settled(client.State(), client.app.spec)) ==> rolled == old(client.State()))
                && client.State() == Finished(name, application, client.deferDeletion, client.reports, rolled, route, status,
                                              old(IsServing(client.status, found, route)), now)
      ensures old(Running() && !Healthy()) ==>
                && ok && Running() && (!client.deferDeletion ==> !client.status.phase.Ready?) && RolledFrom(old(client.State()), rolled)
                && var l := LastFailure(name, client.app.spec, client.reports, |client.app.spec.processes|);
                   client.State() == RollingOut(name, application, client.reports, rolled, route, status,
                                                Total(name, client.app.spec, client.reports, |client.app.spec.processes|),
                                                l.Some?, if l.Some? then l.value else "", now)
      ensures old(CutShort()) ==> !ok && RoutedOnly(old(client.status), route.hostname)
    {
      hide Connected, SawAllReady, AllDesired, Touches, Held, AllReady, RolledFrom, LastFailure, Total;
      var serving := IsServing(client.status, found, route);
      ghost var s0 := client.State();
      var ready, allReady, failed, message;
      ok, allReady, ready, failed, message, rolled := TryCandidate(client.app.spec);
      if !ok {
        return;
      }
      ghost var s2 := client.State();
      if !allReady {
        ok := AwaitRollout(route, status, ready, failed, message, now);
        if old(Running() && !Healthy()) {
          RollingOutCalmed(name, application, client.reports, rolled, s2, route, status, ready, failed, message, now);
        }
        if ok && !client.deferDeletion {
          HeldNotReady(application, s0.status, now, client.State());
        }
        return;
      }
      ok := Finish(route, status, ready, serving, now);
      if old(Healthy()) {
        CalmTwice(rolled.objects, client.reports);
      }
    }

    /** Policy and route are read or written before anything else. */
    method Begin() returns (ok: bool, route: Route, found: bool)
      requires Connected()
      modifies client`objects, client`route, client`policy, client`pending, client`weather, client`trace
      ensures Connected() && old(client.trace) <= client.trace && route.hostname == client.app.spec.hostname
      ensures forall k | k in client.objects :: k in old(client.objects)
      ensures client.Clear() ==> route == RouteRead(old(client.State())) && Begun(client.reports, old(client.State()), client.State())
      ensures client.Clear() ==>
                ok && client.State() == old(client.State()).(objects := Calmed(old(client.objects), client.reports), policy := Some(client.app.spec.egress))
                && found == client.route.Some?
                && (found ==> route == client.route.value.(hostname := client.app.spec.hostname))
    {
      hide Good, Client.Valid;
      var spec := client.app.spec;
      ghost var s0 := client.State();
      ghost var mid;
      route, found := Route(None, 0, false, spec.hostname), false;
      ok, mid := client.UpsertNetworkPolicy(spec.egress);
      if !ok {
        return;
      }
      var existing;
      ok, existing := client.GetHTTPRoute();
      CalmTwice(s0.objects, client.reports);
      if existing.Some? {
        route, found := existing.value.(hostname := spec.hostname), true;
      }
    }

    /** The migration is done, or its job succeeds. */
    ghost predicate Passing(status: Status)
      reads this, client
    {
      MigrationDone(client.app.spec, status) || client.reports.ends(MigrationOf(name, client.app.spec).name).Succeeded?
    }

    /** The migration first; candidate workloads only once it has succeeded. */
    method Advance(route: Route, found: bool, status: Status, now: int) returns (ok: bool, ghost rolled: State)
      requires Connected() && client.promoting.None? && Inherits(status) && status.migrated == client.status.migrated
      requires ValidSpec(client.app.spec) && !TearingDown(client.app.lifecycle)
      modifies client`objects, client`route, client`policy, client`pending, client`weather, client`trace
      modifies client`status, client`promoted, client`promoting, client`migrated, client`ahead, client`stopped
      ensures Connected() && old(client.trace) <= client.trace
      ensures ok && !client.deferDeletion && !client.status.phase.Ready? ==> Held(application, old(client.status), now, client.State())
      ensures old(Healthy() && Passing(status)) ==>
                && ok && Running() && RolledFrom(old(client.State()), rolled)
                && AllDesired(name, application, client.app.spec, rolled, |client.app.spec.processes|)
                && (old(MigrationDone(client.app.spec, status) && Settled(client.State(), client.app.spec)) ==> rolled == old(client.State()))
                && client.State() == Finished(name, application, client.deferDeletion, client.reports, rolled, route, PastMigration(client.app.spec, status),
                                              old(IsServing(client.status, found, route)), now)
      ensures old(Running() && !Healthy() && Passing(status)) ==>
                && ok && Running() && (!client.deferDeletion ==> !client.status.phase.Ready?) && RolledFrom(old(client.State()), rolled)
                && var l := LastFailure(name, client.app.spec, client.reports, |client.app.spec.processes|);
                   client.State() == RollingOut(name, application, client.reports, rolled, route, PastMigration(client.app.spec, status),
                                                Total(name, client.app.spec, client.reports, |client.app.spec.processes|),
                                                l.Some?, if l.Some? then l.value else "", now)
      ensures old(Running() && !Passing(status)) ==>
                && ok && Running() && RolledFrom(old(client.State()), rolled)
                && var k := MigrationOf(name, client.app.spec).name;
                   var failed := client.reports.ends(k).Failed?;
                   client.State() == Migrating(application, client.reports, rolled, route, status, failed, if failed then client.reports.says(k) else "", now)
      ensures old(CutShort() && Passing(status)) ==>
                !ok && RoutedOnly(old(client.status), route.hostname)
                && (!client.deferDeletion && client.app.spec.migration ==> client.app.spec.release in client.migrated)
      ensures !MigrationDone(client.app.spec, status) && (ok || old(client.Clear())) ==>
                Submits(client.trace, |old(client.trace)|, MigrationOf(name, client.app.spec), MigrationOf(name, client.app.spec) !in old(client.objects))
    {
      hide Good, Client.Valid, Held, Finished, Submits, AllReady, AllDesired;
      var spec := client.app.spec;
      var k := MigrationOf(name, spec);
      ghost var n, anew, s0 := |client.trace|, k !in client.objects, client.State();
      var ready, failed, message, st;
      ok, ready, failed, message, st := EnsureMigration(spec, status);
      rolled := client.State();
      if !ok {
        return;
      }
      ghost var sofar := client.trace;
      if !ready {
        ok := AwaitMigration(route, st, failed, message, now);
      } else {
        ok, rolled := RolloutRelease(route, found, st, now);
      }
      if !MigrationDone(spec, status) {
        SubmitsStill(sofar, client.trace, n, k, anew);
      }
    }

    /** The stored status inherits itself. */
    lemma InheritsStored(status: Status)
      requires Connected()
      requires status.active == client.status.active && status.backend == client.status.backend && status.port == client.status.port
      requires status.migrated == client.status.migrated
      ensures Inherits(status)
    {
      hide Labelled, Gated, Ported, History;
    }

    /** From this point of the trace on the stored spec's migration was submitted, anew if there was no such job. */
    ghost predicate SubmittedSince(n: nat, anew: bool)
      reads this, client
    {
      exists i: nat :: n <= i && Submits(client.trace, i, MigrationOf(name, client.app.spec), anew)
    }

    method ReconcileActive(now: int) returns (ok: bool)
      requires Connected() && client.promoting.None? && ValidSpec(client.app.spec) && !TearingDown(client.app.lifecycle)
      modifies client`objects, client`route, client`policy, client`pending, client`weather, client`trace
      modifies client`status, client`promoted, client`promoting, client`migrated, client`ahead, client`stopped
      ensures Connected() && old(client.trace) <= client.trace
      ensures ok && !client.deferDeletion && !client.status.phase.Ready? ==> Held(application, old(client.status), now, client.State())
      ensures old(Healthy() && Unhindered(name, client.app.spec, client.status, client.reports)) ==>
                ok && Running() && Live(name, application, client.reports, client.State()) && old(client.pending) <= client.pending
      ensures old(Healthy() && !client.deferDeletion && Live(name, application, client.reports, client.State())) ==>
                client.State() == Cleaned(application, old(client.State()), false, client.reports)
      ensures old(Running() && !Healthy() && Unhindered(name, client.app.spec, client.status, client.reports)) ==>
                ok && Running() && (!client.deferDeletion ==> !client.status.phase.Ready?)
      ensures old(CutShort() && Unhindered(name, client.app.spec, client.status, client.reports)) ==>
                !ok && RoutedOnly(old(client.status), client.app.spec.hostname)
                && (!client.deferDeletion && client.app.spec.migration ==> client.app.spec.release in client.migrated)
      ensures old(!Conflicting(client.app.spec, client.status) && !MigrationDone(client.app.spec, client.status)) && (ok || old(client.Clear())) ==>
                SubmittedSince(|old(client.trace)|, MigrationOf(name, client.app.spec) !in old(client.objects))
      ensures old(Running()) ==> ok && Running() && Answers(name, application, client.deferDeletion, client.reports, old(client.State()), client.State(), now)
    {
      hide Connected, Inherits, Held, Live, Finished, AllDesired, Cleaned, Submits, AllReady, RolledFrom, Answers, Begun, Migrating, RollingOut, Refusing, RouteRead;
      hide Total, LastFailure;
      var spec := client.app.spec;
      ghost var s0 := client.State();
      var route, found;
      ok, route, found := Begin();
      if !ok {
        return;
      }
      var status := client.status.(generation := client.app.generation);
      InheritsStored(status);
      if Conflicting(spec, status) {
        if Live(name, application, client.reports, s0) {
          LiveBegins(name, application, client.reports, s0);
        }
        ghost var s1 := client.State();
        ok := RefuseConflict(route, status, now);
        if old(Running()) {
          RefusingAnswers(name, application, client.deferDeletion, client.reports, s0, s1, status, now);
        }
        return;
      }
      status := Tracked(spec, status, now);
      InheritsStored(status);
      ghost var s1, n := client.State(), |client.trace|;
      ghost var rolled;
      ok, rolled := Advance(route, found, status, now);
      if !MigrationDone(spec, status) && (ok || old(client.Clear())) {
        SubmitsStill(client.trace, client.trace, n, MigrationOf(name, spec), MigrationOf(name, spec) !in s1.objects);
      }
      if old(Healthy()) {
        ActiveOutcome(name, application, client.deferDeletion, client.reports, s0, s1, rolled, route, found, status, client.State(), now);
      }
      if old(Running()) {
        AdvanceAnswers(name, application, client.deferDeletion, client.reports, s0, s1, rolled, status,
                       AlreadyServing(name, spec, s0.status, found, route), client.State(), now);
      }
    }

    // -------------------------------------------------------------- suspension and deletion

    /** Writes the status of a tear-down step. */
    method Announce(st: Status) returns (ok: bool)
      requires Connected() && TearingDown(client.app.lifecycle) && Announces(client.ctx, client.State(), st.phase)
      requires Deleting(client.app.lifecycle) || st.migrated == client.status.migrated
      requires !client.deferDeletion ==> client.route.None?
      requires (st.active.None? || st.active == client.status.active) && (st.migrated.None? || st.migrated == client.status.migrated)
      modifies client`objects, client`route, client`policy, client`pending, client`weather, client`trace
      modifies client`status, client`ahead
      ensures Connected() && old(client.trace) <= client.trace
      ensures ok ==> client.status == st && Announces(client.ctx, client.State(), st.phase)
      ensures client.Clear() ==> ok && client.State() == old(client.State()).(objects := Calmed(old(client.objects), client.reports), status := st)
    {
      hide Labelled, Gated, Ported, History, Announces, Drift;
      ghost var mid;
      ok, mid := client.UpdatePaaSAppStatus(st);
      DriftAnnounces(client.ctx, old(client.State()), mid, st.phase);
      StatusAside(client.ctx, mid, st);
    }

    /** The first step of a tear-down: traffic goes before anything else. */
    method RemoveRoute() returns (ok: bool, removed: bool)
      requires Connected() && TearingDown(client.app.lifecycle)
      modifies client`objects, client`route, client`policy, client`pending, client`weather, client`trace
      modifies client`ahead
      ensures Connected() && old(client.trace) <= client.trace
      ensures ok && (!removed || !client.deferDeletion) ==> client.route.None?
      ensures client.Clear() ==> ok && (removed <==> old(client.route).Some?)
      ensures client.Clear() ==>
                client.State() == if removed then WithoutRoute(old(client.State()), client.deferDeletion, client.reports)
                                  else old(client.State()).(objects := Calmed(old(client.objects), client.reports))
    {
      ghost var s0 := client.State();
      var found;
      ok, found := client.GetHTTPRoute();
      CalmTwice(s0.objects, client.reports);
      removed := false;
      if !ok || found.None? {
        return;
      }
      removed := true;
      hide History, Drift, Labelled, Gated, Ported;
      ghost var mid;
      ok, mid := client.DeleteHTTPRoute();
    }

    /** Removes the route if there is one, and reports it. */
    method ClearRoute(st: Status) returns (ok: bool, removed: bool)
      requires Connected() && TearingDown(client.app.lifecycle) && !IsFinal(st.phase)
      requires st.active == client.status.active && st.migrated == client.status.migrated
      modifies client`objects, client`route, client`policy, client`pending, client`weather, client`trace
      modifies client`status, client`ahead
      ensures Connected() && old(client.trace) <= client.trace
      ensures ok && !removed ==> client.route.None? && client.status == old(client.status) && (!client.deferDeletion ==> Anchored(client.ctx, client.State(), false))
      ensures client.Clear() ==> ok
      ensures ok && removed ==> client.status == st
      ensures client.Clear() ==> (removed <==> old(client.route).Some?)
      ensures client.Clear() && removed ==>
                && Proceeds(application, old(client.State()), client.State())
                && client.State() == WithoutRoute(old(client.State()), client.deferDeletion, client.reports).(status := st)
      ensures client.Clear() && !removed ==> client.State() == old(client.State()).(objects := Calmed(old(client.objects), client.reports))
    {
      hide Good, History, Aimed, Proceeds, Drift, Calmed;
      ghost var s0 := client.State();
      assert client.ctx.Kept(client.app);
      CalmTwice(s0.objects, client.reports);
      ok, removed := RemoveRoute();
      if !ok {
        return;
      }
      if removed {
        ok := Announce(st);
        if client.Clear() {
          RouteProceeds(application, s0, client.deferDeletion, client.reports, st);
        }
      } else {
        PutsNothing(client.ctx, client.State());
      }
    }

    /** Requests the deletion of all workloads, and reports if any are still there. */
    method DrainWorkloads(st: Status) returns (ok: bool, remaining: bool)
      requires Connected() && TearingDown(client.app.lifecycle) && !IsFinal(st.phase) && client.route.None?
      requires st.active == client.status.active && st.migrated == client.status.migrated
      requires !client.deferDeletion ==> Anchored(client.ctx, client.State(), false)
      modifies client`objects, client`route, client`policy, client`pending, client`weather, client`trace
      modifies client`status, client`ahead
      ensures Connected() && old(client.trace) <= client.trace
      ensures ok && !remaining ==> Gone(client.ctx, client.State()) && client.route.None? && client.status == old(client.status)
      ensures ok && remaining ==> client.status == st
      ensures client.Clear() ==> ok && (remaining <==> client.deferDeletion && Doomed(application, old(client.State()), false, AllKinds()) != {})
      ensures client.Clear() ==>
                client.State() == Requested(old(client.State()), client.deferDeletion, client.reports, Doomed(application, old(client.State()), false, AllKinds()))
                                  .(status := if remaining then st else old(client.status))
    {
      ghost var s0 := client.State();
      hide Connected, Gone, Recedes, Anchored, Doomed;
      ok, remaining := DeleteWorkloads(false);
      RecedesRoute(s0, client.State());
      if !ok {
        return;
      }
      RequestedLeaves(application, s0, client.deferDeletion, client.reports, false);
      if remaining {
        NotFinal(client.ctx, client.State(), st.phase);
        ok := Announce(st);
      } else {
        Named();
        NothingLeft(client.ctx, client.State());
      }
    }

    lemma Named()
      requires Connected()
      ensures client.ctx.application == application
    {}

    method ReconcileSuspension(now: int) returns (ok: bool)
      requires Connected() && TearingDown(client.app.lifecycle) && !Deleting(client.app.lifecycle)
      modifies client`objects, client`route, client`policy, client`pending, client`weather, client`trace
      modifies client`status, client`ahead
      ensures Connected() && old(client.trace) <= client.trace
      ensures ok ==> Concludes(client.ctx, client.State()) && Spared(old(client.status), client.status)
      ensures client.Clear() ==>
                && ok && Proceeds(application, old(client.State()), client.State())
                && client.State() == Withdrawn(application, old(client.State()), client.deferDeletion, client.reports).(status := client.status)
      ensures client.Clear() ==> Suspends(application, client.deferDeletion, old(client.State()), client.State(), now)
    {
      hide Connected, Gone, Anchored, Proceeds, Requested, Doomed, Suspends, WithoutRoute;
      ghost var s0 := client.State();
      var status := client.status.(generation := client.app.generation);
      var done;
      ok, done := ClearRoute(status.(
        phase := Phase.Suspending, url := None,
        condition := Some(SetCondition(status.condition, false, TrafficSuspended, "", client.app.generation, now))));
      if client.Clear() && done {
        RouteSuspends(application, client.deferDeletion, client.reports, s0, now);
      }
      if !ok || done {
        return;
      }
      ghost var s1 := client.State();
      ok, done := DrainWorkloads(status.(
        phase := Phase.Suspending,
        condition := Some(SetCondition(status.condition, false, ComputeSuspensionPending, "", client.app.generation, now))));
      if ok && !done {
        ghost var s2 := client.State();
        GoneAnnounces(client.ctx, s2, Phase.Suspended);
        ok := Announce(status.(
          phase := Phase.Suspended, url := None, ready := 0, backend := None, port := 0, candidate := None, fingerprint := None, started := None,
          condition := Some(SetCondition(status.condition, false, ComputeSuspended, "", client.app.generation, now))));
        RequestedLeaves(application, s1, client.deferDeletion, client.reports, false);
      }
      if client.Clear() {
        WorkloadsProceed(application, s0, s1, client.deferDeletion, client.reports, client.status, done);
        RequestedAfterCalm(application, s0, s1, client.deferDeletion, client.reports, false, AllKinds());
        CalmDoomed(application, s0, client.reports, false, AllKinds());
        WorkloadsSuspend(application, client.deferDeletion, client.reports, s0, now);
      }
    }

    /** Deletes the policy and looks again. */
    method RemovePolicy() returns (ok: bool, gone: bool)
      requires Connected() && Deleting(client.app.lifecycle)
      modifies client`objects, client`route, client`policy, client`pending, client`weather, client`trace
      ensures Connected() && old(client.trace) <= client.trace && Recedes(old(client.State()), client.State())
      ensures ok && gone ==> client.policy.None?
      ensures client.Clear() ==>
                ok && (gone <==> old(client.policy).None? || !client.deferDeletion)
                && client.State() == WithoutPolicy(old(client.State()), client.deferDeletion, client.reports)
    {
      hide Good, History, Drift, Aimed, Recedes;
      ghost var s0 := client.State();
      gone := false;
      var found;
      ok, found := client.GetNetworkPolicy();
      CalmTwice(s0.objects, client.reports);
      RecedesDrift(s0, client.State());
      if !ok {
        return;
      }
      if !found {
        gone := true;
        return;
      }
      ghost var s1 := client.State();
      ok := AskPolicyDeletion();
      RecedesTransitive(s0, s1, client.State());
      if !ok {
        return;
      }
      ghost var s2 := client.State();
      ok, found := client.GetNetworkPolicy();
      RecedesDrift(s2, client.State());
      RecedesTransitive(s0, s2, client.State());
      gone := !found;
    }

    method AskPolicyDeletion() returns (ok: bool)
      requires Connected()
      modifies client`objects, client`route, client`policy, client`pending, client`weather, client`trace
      ensures Connected() && old(client.trace) <= client.trace && Recedes(old(client.State()), client.State())
      ensures client.Clear() ==> ok && client.State() == old(client.State()).(
                objects := Calmed(old(client.objects), client.reports),
                policy := if client.deferDeletion then old(client.policy) else None,
                pending := if client.deferDeletion then old(client.pending) + {OnPolicy} else old(client.pending))
    {
      hide Good, History;
      ghost var mid;
      ok, mid := client.DeleteNetworkPolicy();
      RecedesDrift(old(client.State()), mid);
      assert Recedes(mid, client.State());
      RecedesTransitive(old(client.State()), mid, client.State());
    }

    /** Route, then workloads, then policy; finished only when all are gone. */
    method ReconcileDeletion(now: int) returns (ok: bool)
      requires Connected() && Deleting(client.app.lifecycle)
      modifies client`objects, client`route, client`policy, client`pending, client`weather, client`trace
      modifies client`status, client`ahead
      ensures Connected() && old(client.trace) <= client.trace
      ensures ok ==> Concludes(client.ctx, client.State())
      ensures client.Clear() ==> ok && Proceeds(application, old(client.State()), client.State())
      ensures client.Clear() ==> Removes(application, client.deferDeletion, old(client.State()), client.State(), now)
    {
      hide Connected, Gone, Anchored, Proceeds, Requested, Doomed, Removes, WithoutRoute, WithoutPolicy;
      ghost var s0 := client.State();
      var status := client.status.(generation := client.app.generation);
      var done;
      ok, done := ClearRoute(status.(phase := Phase.DeletingRoute));
      if client.Clear() && done {
        RouteSuspends(application, client.deferDeletion, client.reports, s0, now);
      }
      if !ok || done {
        return;
      }
      ghost var s1 := client.State();
      ok, done := DrainWorkloads(Pending(status, Phase.DeletingWorkloads, now));
      if !ok {
        return;
      }
      if client.Clear() {
        RequestedAfterCalm(application, s0, s1, client.deferDeletion, client.reports, false, AllKinds());
        CalmDoomed(application, s0, client.reports, false, AllKinds());
      }
      if done {
        if client.Clear() {
          WorkloadsProceed(application, s0, s1, client.deferDeletion, client.reports, client.status, true);
          WorkloadsSuspend(application, client.deferDeletion, client.reports, s0, now);
        }
        return;
      }
      RequestedLeaves(application, s1, client.deferDeletion, client.reports, false);
      ghost var drained := Requested(s1, client.deferDeletion, client.reports, Doomed(application, s1, false, AllKinds()));
      ok := FinishDeletion(status, now);
      if client.Clear() {
        PolicyAfter(drained, s0.status, client.deferDeletion, client.reports, client.status);
        PolicyProceeds(application, s0, s1, client.deferDeletion, client.reports, client.State());
        PolicyRemoves(application, client.deferDeletion, client.reports, s0, now);
      }
    }

    function Pending(status: Status, phase: Phase, now: int): Status
      reads client
    {
      status.(phase := phase, condition := Some(SetCondition(status.condition, false, RuntimeDeletionPending, "", client.app.generation, now)))
    }

    method FinishDeletion(status: Status, now: int) returns (ok: bool)
      requires Connected() && Deleting(client.app.lifecycle) && Gone(client.ctx, client.State())
      requires status.active == client.status.active && status.migrated == client.status.migrated && status.generation == client.app.generation
      modifies client`objects, client`route, client`policy, client`pending, client`weather, client`trace
      modifies client`status, client`ahead
      ensures Connected() && old(client.trace) <= client.trace
      ensures ok ==> Concludes(client.ctx, client.State())
      ensures client.Clear() ==>
                ok && client.State() == WithoutPolicy(old(client.State()), client.deferDeletion, client.reports).(status := client.status)
      ensures client.Clear() && !(client.deferDeletion && old(client.policy).Some?) ==> IsFinal(client.status.phase)
      ensures client.Clear() ==>
                client.status == if client.deferDeletion && old(client.policy).Some? then StillThere(client.app, status, Phase.DeletingPolicy, RuntimeDeletionPending, now)
                                 else Removed(client.app, status, now)
    {
      hide Good, Client.Valid, Gone, Recedes;
      ghost var s0 := client.State();
      var gone;
      ok, gone := RemovePolicy();
      if !ok {
        return;
      }
      GoneRecedes(client.ctx, s0, client.State());
      CalmTwice(s0.objects, client.reports);
      if !gone {
        ok := Announce(Pending(status, Phase.DeletingPolicy, now));
        return;
      }
      var final := client.app.lifecycle.Deleted?;
      ok := Announce(status.(
        phase := if final then Phase.Deleted else Phase.Retaining,
        url := None, ready := 0, active := None, backend := None, port := 0, candidate := None, migrated := None, fingerprint := None, started := None,
        condition := Some(SetCondition(status.condition, false, if final then RuntimePurged else RuntimeDeleted, "", client.app.generation, now))));
    }

    // -------------------------------------------------------------- reconciliation

    /** A valid spec to be kept serving. */
    predicate Wanted()
      reads client
    {
      ValidSpec(client.app.spec) && !TearingDown(client.app.lifecycle)
    }

    method Reconcile(now: int) returns (ok: bool)
      requires Connected()
      modifies client`objects, client`route, client`policy, client`pending, client`weather, client`trace
      modifies client`status, client`promoted, client`promoting, client`migrated, client`ahead, client`stopped, client`turn
      ensures Connected() && old(client.trace) <= client.trace
      ensures !ValidSpec(client.app.spec) ==> !ok && client.State() == old(client.State())
      ensures ok && !client.deferDeletion && Wanted() && !client.status.phase.Ready? ==> Held(application, old(client.status), now, client.State())
      ensures Wanted() && old(Healthy() && Unhindered(name, client.app.spec, client.status, client.reports)) ==>
                ok && Running() && Live(name, application, client.reports, client.State()) && old(client.pending) <= client.pending
      ensures Wanted() && old(Healthy() && !client.deferDeletion && Live(name, application, client.reports, client.State())) ==>
                client.State() == Cleaned(application, old(client.State()), false, client.reports)
      ensures Wanted() && old(Running() && !Healthy() && Unhindered(name, client.app.spec, client.status, client.reports)) ==>
                ok && Running() && (!client.deferDeletion ==> !client.status.phase.Ready?)
      ensures Wanted() && old(Running()) ==> ok && Running() && Answers(name, application, client.deferDeletion, client.reports, old(client.State()), client.State(), now)
      ensures Wanted() && old(CutShort() && Unhindered(name, client.app.spec, client.status, client.reports)) ==>
                !ok && RoutedOnly(old(client.status), client.app.spec.hostname)
                && (!client.deferDeletion && client.app.spec.migration ==> client.app.spec.release in client.migrated)
      ensures Wanted() && old(!Conflicting(client.app.spec, client.status) && !MigrationDone(client.app.spec, client.status)) && (ok || old(client.Clear())) ==>
                SubmittedSince(|old(client.trace)|, MigrationOf(name, client.app.spec) !in old(client.objects))
      ensures ok && TearingDown(client.app.lifecycle) ==> Concludes(client.ctx, client.State())
      ensures ValidSpec(client.app.spec) && TearingDown(client.app.lifecycle) && old(client.Clear()) ==>
                ok && client.Clear() && Proceeds(application, old(client.State()), client.State())
      ensures ok && TearingDown(client.app.lifecycle) && !Deleting(client.app.lifecycle) ==> Spared(old(client.status), client.status)
      ensures ValidSpec(client.app.spec) && TearingDown(client.app.lifecycle) && !Deleting(client.app.lifecycle) && old(client.Clear()) ==>
                client.State() == Withdrawn(application, old(client.State()), client.deferDeletion, client.reports).(status := client.status)
      ensures ValidSpec(client.app.spec) && TearingDown(client.app.lifecycle) && old(client.Clear()) ==>
                if Deleting(client.app.lifecycle) then Removes(application, client.deferDeletion, old(client.State()), client.State(), now)
                else Suspends(application, client.deferDeletion, old(client.State()), client.State(), now)
    {
      hide Client.Valid, Held, Live, Cleaned, Proceeds, AllReady, Unhindered, SubmittedSince, Withdrawn, Spared, Answers, Suspends, Removes;
      client.BeginTurn();
      if !ValidSpec(client.app.spec) {
        ok := false;
      } else if Deleting(client.app.lifecycle) {
        ok := ReconcileDeletion(now);
      } else if TearingDown(client.app.lifecycle) {
        ok := ReconcileSuspension(now);
      } else {
        ok := ReconcileActive(now);
      }
    }
  }
}
