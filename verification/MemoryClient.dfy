/** The client calls, each one atomic step on the cluster. Every call leaves a moment in the trace, and while deletions
    take effect at once every moment is good. */
module MemoryClient {
  import opened Int64
  import opened Cluster

  function Lookup(objects: map<Key, Object>, k: Key): (found: Option<Object>)
    ensures found.Some? ==> k in objects && found.value == objects[k]
  {
    if k in objects then Some(objects[k]) else None
  }

  class Client {
    const deferDeletion: bool
    const calm: bool
    const reports: Reports
    ghost const ctx: Context

    var app: App
    var status: Status
    var objects: map<Key, Object>
    var route: Option<Route>
    var policy: Option<string>
    var pending: set<Target>
    var weather: seq<Weather>

    // In calm weather a call fails only if the operator was told to stop, which it does right after its next route write.
    var stopping: bool
    var stopped: bool

    ghost var promoted: set<Id>
    ghost var migrated: set<Id>
    ghost var turn: nat
    ghost var ahead: Option<Id>
    ghost var promoting: Option<Spec>
    ghost var trace: seq<Moment>

    constructor (app: App, status: Status, deferDeletion: bool, calm: bool, reports: Reports, weather: seq<Weather>, ghost ctx: Context)
      requires status.active.None? && status.migrated.None?
      requires ctx.Kept(app)
      ensures Valid() && this.ctx == ctx && this.deferDeletion == deferDeletion && this.calm == calm && this.reports == reports
      ensures !stopping && !stopped && turn == 0 && promoting == None
      ensures State() == Cluster.State(app, status, map[], None, None, {}, {}, {}) && trace == [Moment(Begins, State(), 0, None, None)]
    {
      this.deferDeletion, this.calm, this.reports, this.ctx := deferDeletion, calm, reports, ctx;
      this.app, this.status, this.weather := app, status, weather;
      objects, route, policy, pending, stopping, stopped := map[], None, None, {}, false, false;
      promoted, migrated, turn, ahead, promoting := {}, {}, 0, None, None;
      trace := [Moment(Begins, Cluster.State(app, status, map[], None, None, {}, {}, {}), 0, None, None)];
    }

    ghost function State(): State
      reads this
    {
      Cluster.State(app, status, objects, route, policy, pending, promoted, migrated)
    }

    ghost predicate Latest()
      reads this
    {
      trace != [] && var m := trace[|trace| - 1];
      && m.state == State() && m.turn <= turn && m.ahead == ahead && promoting == (if m.turn == turn then m.promoting else None)
    }

    ghost predicate Valid()
      reads this
    {
      (!deferDeletion ==> Good(ctx, State()) && Aimed(State(), ahead)) && History(ctx, trace, !deferDeletion) && Latest() && ctx.Kept(app)
    }

    /** Calm weather, and the operator is running. */
    predicate Clear()
      reads this
    {
      calm && !stopped
    }

    // -------------------------------------------------------------- between two calls

    /** The weather before a call: an empty forecast means the operator stops here for good. */
    method Call() returns (ok: bool)
      modifies this`objects, this`route, this`policy, this`pending, this`weather
      ensures Drift(old(State()), State())
      ensures Clear() ==> ok && State() == old(State()).(objects := Calmed(old(objects), reports))
      ensures stopped ==> !ok && State() == old(State())
    {
      hide Drift, Calmed;
      CalmDrifts(State(), reports);
      if stopped {
        return false;
      }
      if calm {
        objects := Calmed(objects, reports);
        return true;
      }
      ok := Endure();
    }

    /** Reports arrive, requested deletions take effect, and the call may fail. */
    method Endure() returns (ok: bool)
      modifies this`objects, this`route, this`policy, this`pending, this`weather
      ensures Drift(old(State()), State())
    {
      if weather == [] {
        return false;
      }
      var w := weather[0];
      weather := weather[1..];
      var gone := w.completes * pending;
      objects := map k | k in objects && OnObject(k) !in gone :: Reported(objects[k], k.name, w);
      route := if OnRoute in gone then None else route;
      policy := if OnPolicy in gone then None else policy;
      pending := pending - gone;
      return w.ok;
    }

    /** The moment after a call goes on record. */
    ghost method Note(action: Action)
      requires History(ctx, trace, !deferDeletion) && ctx.Kept(app)
      requires Continues(ctx, trace, Moment(action, State(), turn, ahead, promoting), !deferDeletion)
      modifies this`trace
      ensures Valid() && trace == old(trace) + [Moment(action, State(), turn, ahead, promoting)]
    {
      HistoryGrows(ctx, trace, !deferDeletion, Moment(action, State(), turn, ahead, promoting));
      hide Good, Aimed, History;
      trace := trace + [Moment(action, State(), turn, ahead, promoting)];
    }

    /** Another reconciliation begins. */
    ghost method BeginTurn()
      requires Valid()
      modifies this`turn, this`promoting
      ensures Valid() && turn == old(turn) + 1 && promoting == None
    {
      hide Good, Aimed, History;
      turn, promoting := turn + 1, None;
    }

    /** The operator is started again, or told when to stop. */
    method Restart(stopping: bool)
      requires Valid()
      modifies this`stopping, this`stopped
      ensures Valid() && this.stopping == stopping && !stopped
    {
      hide Good, Aimed, History;
      this.stopping, stopped := stopping, false;
    }

    // -------------------------------------------------------------- objects

    method Upsert(k: Key, v: Object) returns (ok: bool, ghost mid: State)
      requires Valid() && (!deferDeletion ==> Proper(ctx, State(), k, v)) && (k.kind.JobKind? ==> status.migrated != Some(k.name.release))
      modifies this`objects, this`route, this`policy, this`pending, this`weather, this`trace
      ensures Valid() && trace == old(trace) + [Moment(if ok then Upserts(k) else Reads, State(), turn, ahead, promoting)]
      ensures Drift(old(State()), mid) && (Clear() ==> ok && mid == old(State()).(objects := Calmed(old(objects), reports)))
      ensures State() == if ok then mid.(objects := mid.objects[k := Merged(mid.objects, k, v)]) else mid
    {
      hide Good, Aimed, Drift, History, Continues, Truthful, Follows, Merged, Removable, Routable, Recordable, Announces;
      ok := Call();
      mid := State();
      if !deferDeletion {
        DriftKeeps(ctx, old(State()), mid, ahead);
        ProperStays(ctx, old(State()), mid, k, v);
        UpsertGood(ctx, mid, k, v);
        UpsertAimed(ctx, mid, k, v, ahead);
      }
      DriftSame(old(State()), mid);
      if ok {
        objects := objects[k := Merged(objects, k, v)];
        assert State() == mid.(objects := mid.objects[k := Merged(mid.objects, k, v)]);
      }
      ghost var action := if ok then Upserts(k) else Reads;
      CallContinues(ctx, trace, mid, Moment(action, State(), turn, ahead, promoting), !deferDeletion);
      Note(action);
    }

    method Get(k: Key) returns (ok: bool, found: Option<Object>)
      requires Valid()
      modifies this`objects, this`route, this`policy, this`pending, this`weather, this`trace
      ensures Valid() && trace == old(trace) + [Moment(Reads, State(), turn, ahead, promoting)]
      ensures Drift(old(State()), State()) && (Clear() ==> ok && State() == old(State()).(objects := Calmed(old(objects), reports)))
      ensures ok ==> found == Lookup(objects, k)
    {
      ok := Read();
      found := Lookup(objects, k);
    }

    /** Any call that only reads. */
    method Read() returns (ok: bool)
      requires Valid()
      modifies this`objects, this`route, this`policy, this`pending, this`weather, this`trace
      ensures Valid() && trace == old(trace) + [Moment(Reads, State(), turn, ahead, promoting)]
      ensures Drift(old(State()), State()) && (Clear() ==> ok && State() == old(State()).(objects := Calmed(old(objects), reports)))
    {
      hide Good, Aimed, Drift, History, Continues, Truthful, Follows, Merged, Proper, Removable, Routable, Recordable, Announces;
      ok := Call();
      if !deferDeletion {
        DriftKeeps(ctx, old(State()), State(), ahead);
      }
      CallContinues(ctx, trace, State(), Moment(Reads, State(), turn, ahead, promoting), !deferDeletion);
      Note(Reads);
    }

    /** The keys of one kind whose application label matches. */
    method List(kind: Kind, application: Id) returns (ok: bool, found: set<Key>)
      requires Valid()
      modifies this`objects, this`route, this`policy, this`pending, this`weather, this`trace
      ensures Valid() && trace == old(trace) + [Moment(Reads, State(), turn, ahead, promoting)]
      ensures Drift(old(State()), State()) && (Clear() ==> ok && State() == old(State()).(objects := Calmed(old(objects), reports)))
      ensures ok ==> found == set k | k in objects && k.kind == kind && objects[k].labels.application == application
    {
      ok := Read();
      found := set k | k in objects && k.kind == kind && objects[k].labels.application == application;
    }

    method Delete(k: Key) returns (ok: bool, ghost mid: State)
      requires Valid() && (!deferDeletion ==> Removable(ctx, State(), k)) && (TearingDown(app.lifecycle) ==> route.None?)
      modifies this`objects, this`route, this`policy, this`pending, this`weather, this`trace
      ensures Valid() && trace == old(trace) + [Moment(if ok then Deletes(k) else Reads, State(), turn, ahead, promoting)]
      ensures Drift(old(State()), mid) && (Clear() ==> ok && mid == old(State()).(objects := Calmed(old(objects), reports)))
      ensures State() == if !ok then mid
                         else if deferDeletion then mid.(pending := mid.pending + {OnObject(k)})
                         else mid.(objects := mid.objects - {k})
    {
      hide Good, Aimed, Drift, History, Continues, Truthful, Follows, Merged, Proper, Removable, Routable, Recordable, Announces;
      ok := Call();
      mid := State();
      if !deferDeletion {
        DriftKeeps(ctx, old(State()), mid, ahead);
        RemovableStays(ctx, old(State()), mid, k);
        DeleteGood(ctx, mid, k);
        DeleteAimed(ctx, mid, k, ahead);
      }
      DriftSame(old(State()), mid);
      if ok {
        if deferDeletion {
          pending := pending + {OnObject(k)};
        } else {
          objects := objects - {k};
          assert State() == mid.(objects := mid.objects - {k});
        }
      }
      ghost var action := if ok then Deletes(k) else Reads;
      CallContinues(ctx, trace, mid, Moment(action, State(), turn, ahead, promoting), !deferDeletion);
      Note(action);
    }

    // -------------------------------------------------------------- the route

    method GetHTTPRoute() returns (ok: bool, found: Option<Route>)
      requires Valid()
      modifies this`objects, this`route, this`policy, this`pending, this`weather, this`trace
      ensures Valid() && trace == old(trace) + [Moment(Reads, State(), turn, ahead, promoting)]
      ensures Drift(old(State()), State()) && (Clear() ==> ok && State() == old(State()).(objects := Calmed(old(objects), reports)))
      ensures ok ==> found == route
    {
      ok := Read();
      found := route;
    }

    method UpsertHTTPRoute(r: Route) returns (ok: bool, ghost mid: State)
      requires Valid() && (!deferDeletion ==> Routable(ctx, State(), promoting, r))
      modifies this`objects, this`route, this`policy, this`pending, this`weather, this`trace, this`ahead, this`stopped
      ensures Valid() && trace == old(trace) + [Moment(if ok then Routes else Reads, State(), turn, ahead, promoting)]
      ensures Drift(old(State()), mid) && (old(Clear()) ==> ok && mid == old(State()).(objects := Calmed(old(objects), reports)))
      ensures State() == if ok then mid.(route := Some(r)) else mid
      ensures stopped == if ok then stopping else old(stopped)
    {
      hide Good, Aimed, Drift, History, Carrier, Continues, Truthful, Follows, Merged, Proper, Removable, Routable, Recordable, Announces;
      ok := Call();
      mid := State();
      if !deferDeletion {
        DriftKeeps(ctx, old(State()), mid, ahead);
        RouteGood(ctx, old(State()), mid, promoting, turn, r);
      }
      if !ok {
        CallContinues(ctx, trace, mid, Moment(Reads, State(), turn, ahead, promoting), !deferDeletion);
        Note(Reads);
        return;
      }
      route, stopped := Some(r), stopping;
      assert State() == mid.(route := Some(r));
      ahead := Ahead(ahead, Routes, State());
      RouteContinues(ctx, trace, mid, Moment(Routes, State(), turn, ahead, promoting), !deferDeletion);
      Note(Routes);
    }

    /** Removing the route is for owners who promised nothing. */
    method DeleteHTTPRoute() returns (ok: bool, ghost mid: State)
      requires Valid() && (!deferDeletion ==> !ctx.Steady())
      modifies this`objects, this`route, this`policy, this`pending, this`weather, this`trace, this`ahead
      ensures Valid() && trace == old(trace) + [Moment(if ok then Unroutes else Reads, State(), turn, ahead, promoting)]
      ensures Drift(old(State()), mid) && (Clear() ==> ok && mid == old(State()).(objects := Calmed(old(objects), reports)))
      ensures State() == if !ok then mid
                         else if deferDeletion then mid.(pending := mid.pending + {OnRoute})
                         else mid.(route := None)
    {
      hide Good, Aimed, Drift, History, Continues, Truthful, Follows, Merged, Proper, Removable, Routable, Recordable, Announces;
      ok := Call();
      mid := State();
      if !deferDeletion {
        DriftKeeps(ctx, old(State()), mid, ahead);
        UnroutedGood(ctx, mid);
      }
      if !ok {
        CallContinues(ctx, trace, mid, Moment(Reads, State(), turn, ahead, promoting), !deferDeletion);
        Note(Reads);
        return;
      }
      ahead := None;
      if deferDeletion {
        pending := pending + {OnRoute};
      } else {
        route := None;
      }
      RouteContinues(ctx, trace, mid, Moment(Unroutes, State(), turn, ahead, promoting), !deferDeletion);
      Note(Unroutes);
    }

    // -------------------------------------------------------------- the policy and the status

    method UpsertNetworkPolicy(egress: string) returns (ok: bool, ghost mid: State)
      requires Valid()
      modifies this`objects, this`route, this`policy, this`pending, this`weather, this`trace
      ensures Valid() && trace == old(trace) + [Moment(if ok then Polices else Reads, State(), turn, ahead, promoting)]
      ensures Drift(old(State()), mid) && (Clear() ==> ok && mid == old(State()).(objects := Calmed(old(objects), reports)))
      ensures State() == if ok then mid.(policy := Some(egress)) else mid
    {
      hide Good, Aimed, Drift, History, Continues, Truthful, Follows, Merged, Proper, Removable, Routable, Recordable, Announces;
      ok := Call();
      mid := State();
      if !deferDeletion {
        DriftKeeps(ctx, old(State()), mid, ahead);
        PolicyAside(ctx, mid, ahead);
      }
      if ok {
        policy := Some(egress);
      }
      ghost var action := if ok then Polices else Reads;
      CallContinues(ctx, trace, mid, Moment(action, State(), turn, ahead, promoting), !deferDeletion);
      Note(action);
    }

    method GetNetworkPolicy() returns (ok: bool, found: bool)
      requires Valid()
      modifies this`objects, this`route, this`policy, this`pending, this`weather, this`trace
      ensures Valid() && trace == old(trace) + [Moment(Reads, State(), turn, ahead, promoting)]
      ensures Drift(old(State()), State()) && (Clear() ==> ok && State() == old(State()).(objects := Calmed(old(objects), reports)))
      ensures ok ==> found == policy.Some?
    {
      ok := Read();
      found := policy.Some?;
    }

    method DeleteNetworkPolicy() returns (ok: bool, ghost mid: State)
      requires Valid()
      modifies this`objects, this`route, this`policy, this`pending, this`weather, this`trace
      ensures Valid() && trace == old(trace) + [Moment(if ok then Polices else Reads, State(), turn, ahead, promoting)]
      ensures Drift(old(State()), mid) && (Clear() ==> ok && mid == old(State()).(objects := Calmed(old(objects), reports)))
      ensures State() == if !ok then mid
                         else if deferDeletion then mid.(pending := mid.pending + {OnPolicy})
                         else mid.(policy := None)
    {
      hide Good, Aimed, Drift, History, Continues, Truthful, Follows, Merged, Proper, Removable, Routable, Recordable, Announces;
      ok := Call();
      mid := State();
      if !deferDeletion {
        DriftKeeps(ctx, old(State()), mid, ahead);
        PolicyAside(ctx, mid, ahead);
      }
      if ok {
        if deferDeletion {
          pending := pending + {OnPolicy};
        } else {
          policy := None;
        }
      }
      ghost var action := if ok then Polices else Reads;
      CallContinues(ctx, trace, mid, Moment(action, State(), turn, ahead, promoting), !deferDeletion);
      Note(action);
    }

    method UpdatePaaSAppStatus(s: Status) returns (ok: bool, ghost mid: State)
      requires Valid() && (!deferDeletion ==> Recordable(ctx, State(), s))
      requires Announces(ctx, State(), s.phase) && Follows(ctx, State(), State().(status := s))
      modifies this`objects, this`route, this`policy, this`pending, this`weather, this`trace, this`status, this`ahead
      ensures Valid() && trace == old(trace) + [Moment(if ok then Reveals(s.phase) else Reads, State(), turn, ahead, promoting)]
      ensures Drift(old(State()), mid) && (Clear() ==> ok && mid == old(State()).(objects := Calmed(old(objects), reports)))
      ensures State() == if ok then mid.(status := s) else mid
      ensures stopped ==> !ok && State() == old(State())
    {
      hide Good, Aimed, Drift, History, Continues, Truthful, Follows, Merged, Proper, Removable, Routable, Recordable, Announces;
      ok := Call();
      mid := State();
      if !deferDeletion {
        DriftKeeps(ctx, old(State()), mid, ahead);
        RecordGood(ctx, old(State()), mid, s);
      }
      DriftAnnounces(ctx, old(State()), mid, s.phase);
      GoneWhatever(ctx, mid, s);
      if !ok {
        CallContinues(ctx, trace, mid, Moment(Reads, State(), turn, ahead, promoting), !deferDeletion);
        Note(Reads);
        return;
      }
      status, ahead := s, None;
      assert State() == mid.(status := s);
      StatusContinues(ctx, trace, mid, Moment(Reveals(s.phase), State(), turn, ahead, promoting), !deferDeletion);
      Note(Reveals(s.phase));
    }

    // -------------------------------------------------------------- the environment and the record

    /** The owner stores another spec or asks for another lifecycle. */
    method PutPaaSApp(a: App)
      requires Valid() && ctx.Kept(a)
      modifies this`app, this`trace
      ensures Valid() && State() == old(State()).(app := a) && trace == old(trace) + [Moment(Stores, State(), turn, ahead, promoting)]
    {
      hide History;
      app := a;
      Note(Stores);
    }

    /** Some of the deletions asked for take effect. */
    method CompletePendingDeletions(done: set<Target>)
      requires Valid()
      modifies this`objects, this`route, this`policy, this`pending, this`trace
      ensures Valid() && State() == CarriedOut(old(State()), done) && trace == old(trace) + [Moment(Reads, State(), turn, ahead, promoting)]
    {
      var gone := done * pending;
      objects := map k | k in objects && OnObject(k) !in gone :: objects[k];
      route := if OnRoute in gone then None else route;
      policy := if OnPolicy in gone then None else policy;
      pending := pending - gone;
      hide Good, Aimed, Drift, History, Continues;
      CarriedOutDrifts(old(State()), done);
      if !deferDeletion {
        DriftKeeps(ctx, old(State()), State(), ahead);
      }
      CallContinues(ctx, trace, State(), Moment(Reads, State(), turn, ahead, promoting), !deferDeletion);
      Note(Reads);
    }

    /** The stored spec counts as promoted from here on. */
    ghost method Promote(spec: Spec)
      requires Valid() && ValidSpec(spec) && app.spec == spec && SawAllReady(ctx, trace, |trace|, turn, spec)
      modifies this`promoted, this`promoting, this`trace
      ensures Valid() && State() == old(State()).(promoted := old(promoted) + {spec.release})
      ensures promoting == Some(spec) && trace == old(trace) + [Moment(Promotes(spec), State(), turn, ahead, promoting)]
    {
      hide History, SawAllReady, ValidSpec;
      promoted, promoting := promoted + {spec.release}, Some(spec);
      Note(Promotes(spec));
    }

    ghost method SawMigrated(release: Id)
      requires Valid() && SucceededIn(objects, MigrationKey(ctx, release))
      modifies this`migrated, this`trace
      ensures Valid() && State() == old(State()).(migrated := old(migrated) + {release})
      ensures trace == old(trace) + [Moment(Notices(release), State(), turn, ahead, promoting)]
    {
      hide History, SucceededIn;
      migrated := migrated + {release};
      Note(Notices(release));
    }
  }

  ghost function CarriedOut(s: State, done: set<Target>): State {
    var gone := done * s.pending;
    s.(objects := map k | k in s.objects && OnObject(k) !in gone :: s.objects[k],
       route := if OnRoute in gone then None else s.route, policy := if OnPolicy in gone then None else s.policy,
       pending := s.pending - gone)
  }

  /** A deployment or job that is upserted again keeps its report or outcome; anything else is replaced. */
  lemma UpsertsExactly(objects: map<Key, Object>, k: Key, v: Object)
    ensures Merged(objects, k, v) ==
      match v
      case Deployment(labels, template, report) =>
        Deployment(labels, template, if k in objects && objects[k].Deployment? then objects[k].report else report)
      case Job(labels, template, outcome, message) =>
        if k in objects && objects[k].Job? then Job(labels, template, objects[k].outcome, objects[k].message) else v
      case _ => v
  {}

  /** What was marked and is carried out disappears with its mark; everything else stays. */
  lemma CompletesExactly(s: State, done: set<Target>, k: Key)
    ensures var c := CarriedOut(s, done);
      && c == s.(objects := c.objects, route := c.route, policy := c.policy, pending := c.pending)
      && (k in c.objects <==> k in s.objects && !(OnObject(k) in s.pending && OnObject(k) in done))
      && (k in c.objects ==> c.objects[k] == s.objects[k])
      && c.route == (if OnRoute in s.pending && OnRoute in done then None else s.route)
      && c.policy == (if OnPolicy in s.pending && OnPolicy in done then None else s.policy)
      && forall t :: t in c.pending <==> t in s.pending && t !in done
  {}

  lemma CalmDrifts(s: State, reports: Reports)
    ensures Drift(s, s) && Drift(s, s.(objects := Calmed(s.objects, reports)))
  {}

  lemma CarriedOutDrifts(s: State, done: set<Target>)
    ensures Drift(s, CarriedOut(s, done))
  {}

  lemma DriftSame(a: State, b: State)
    requires Drift(a, b)
    ensures b.app == a.app && b.status == a.status
  {}

  lemma ProperStays(ctx: Context, a: State, b: State, k: Key, v: Object)
    requires Drift(a, b)
    ensures Proper(ctx, b, k, v) <==> Proper(ctx, a, k, v)
  {}

  lemma RemovableStays(ctx: Context, a: State, b: State, k: Key)
    requires Drift(a, b) && a.route == b.route && Removable(ctx, a, k)
    ensures Removable(ctx, b, k)
  {}

  lemma UnroutedGood(ctx: Context, s: State)
    requires Good(ctx, s)
    ensures !ctx.Steady() ==> Good(ctx, s.(route := None)) && Aimed(s.(route := None), None)
  {}

  lemma PolicyAside(ctx: Context, s: State, ahead: Option<Id>)
    requires Good(ctx, s) && Aimed(s, ahead)
    ensures forall policy :: Good(ctx, s.(policy := policy)) && Aimed(s.(policy := policy), ahead)
  {}

  lemma RouteGood(ctx: Context, a: State, mid: State, promoting: Option<Spec>, turn: nat, r: Route)
    requires Good(ctx, a) && Drift(a, mid) && Routable(ctx, a, promoting, r)
    ensures Good(ctx, mid) && Good(ctx, mid.(route := Some(r)))
    ensures var ahead := Ahead(None, Routes, mid.(route := Some(r)));
            Aimed(mid.(route := Some(r)), ahead) && Driven(Moment(Routes, mid.(route := Some(r)), turn, ahead, promoting))
  {
    DriftGood(ctx, a, mid);
    if r.enabled {
      assert SameButReport(a.objects[Key(ServiceKind, r.backend.value)], mid.objects[Key(ServiceKind, r.backend.value)]);
    }
  }

  lemma GoneWhatever(ctx: Context, s: State, status: Status)
    ensures forall phase :: Announces(ctx, s.(status := status), phase) <==> Announces(ctx, s, phase)
  {}

  lemma RecordGood(ctx: Context, a: State, mid: State, s: Status)
    requires Good(ctx, a) && Drift(a, mid) && Recordable(ctx, a, s)
    ensures Good(ctx, mid) && Good(ctx, mid.(status := s)) && Aimed(mid.(status := s), None)
  {
    DriftGood(ctx, a, mid);
    DriftAimed(ctx, a, mid, None);
    if s.backend.Some? && Key(ServiceKind, s.backend.value) in a.objects {
      assert SameButReport(a.objects[Key(ServiceKind, s.backend.value)], mid.objects[Key(ServiceKind, s.backend.value)]);
    }
  }
}
