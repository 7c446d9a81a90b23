/** The control plane's commands as the service runs them: a transaction works on a copy of the state in place, and the
    store takes the copy only if the command succeeded. */
module ControlPlaneStore {
  import opened Int64
  import opened Normalize
  import opened Scheduling
  import opened ControlPlane
  import opened ControlPlaneSafety

  /** A command ended as specified; after a failure the working copy is thrown away. */
  predicate Ends(spec: Result<DB>, failure: Option<Code>, after: DB) {
    match spec
    case Ok(s) => failure.None? && after == s
    case Err(c) => failure == Some(c)
  }

  predicate Answered(spec: Result<Accepted>, answer: Result<Id>, after: DB) {
    match spec
    case Ok(a) => answer == Ok(a.release) && after == a.db
    case Err(c) => answer == Err(c)
  }

  /** The working copy of one transaction. */
  class Tx {
    const catalog: map<string, int>
    var cells: map<Id, Cell>
    var placements: map<Id, Placement>
    var envs: map<Id, Environment>
    var releases: map<Id, Release>
    var deployments: map<Id, Deployment>
    var commits: map<Id, GitCommit>
    var requests: map<RequestKey, Remembered>

    function State(): DB
      reads this
    {
      DB(catalog, cells, placements, envs, releases, deployments, commits, requests)
    }

    constructor (db: DB)
      ensures State() == db
    {
      catalog, cells, placements, envs := db.catalog, db.cells, db.placements, db.envs;
      releases, deployments, commits, requests := db.releases, db.deployments, db.commits, db.requests;
    }

    method GetCurrentPlacement(env: Id) returns (found: Option<Id>)
      requires Pinned(cells, placements, envs)
      ensures found == Current(placements, env)
    {
      var rest := placements.Keys;
      while rest != {}
        invariant rest <= placements.Keys
        invariant forall p | p in placements && p !in rest :: placements[p].env != env || !placements[p].current
        decreases |rest|
      {
        var p :| p in rest;
        if placements[p].env == env && placements[p].current {
          assert PinnedRow(cells, placements, envs, p);
          CurrentIsNamed(cells, placements, envs, env);
          return Some(p);
        }
        rest := rest - {p};
      }
      return None;
    }

    method FindReleaseByIdentity(tenant: Id, env: Id, identity: Identity) returns (found: Option<Id>)
      requires OneEach(releases)
      ensures found == FindByIdentity(releases, tenant, env, identity)
    {
      ghost var f := FindByIdentity(releases, tenant, env, identity);
      var rest := releases.Keys;
      while rest != {}
        invariant rest <= releases.Keys
        invariant forall i | i in releases && i !in rest :: !Carries(releases[i], tenant, env, identity)
        decreases |rest|
      {
        var i :| i in rest;
        if Carries(releases[i], tenant, env, identity) {
          assert f.Some? && SameIdentity(releases, i, f.value);
          return Some(i);
        }
        rest := rest - {i};
      }
      return None;
    }

    method ResizePlacement(id: Id, units: int) returns (failure: Option<Code>)
      requires id in placements
      modifies this`cells, this`placements
      ensures Ends(Resize(old(State()), id, units), failure, State())
    {
      var p := placements[id];
      if p.units == units {
        return None;
      }
      if p.cell !in cells {
        return Some(Internal);
      }
      var cell := cells[p.cell];
      var delta := units - p.units;
      if delta > 0 {
        var grown := cell.Allocate(delta);
        if grown.None? {
          return Some(Capacity);
        }
        cell := grown.value;
      } else {
        var shrunk := cell.Release(-delta);
        if shrunk.None? {
          return Some(InvalidArgument);
        }
        cell := shrunk.value;
      }
      if units <= 0 {
        return Some(InvalidArgument);
      }
      cells := cells[p.cell := cell];
      placements := placements[id := p.(units := units)];
      return None;
    }

    method PlaceEnvironment(id: Id, env: Id, cell: Id, isolation: Isolation, units: int) returns (failure: Option<Code>)
      requires env in envs && cell in cells
      modifies this`cells, this`placements, this`envs
      ensures Ends(Place(old(State()), id, env, cell, isolation, units), failure, State())
    {
      var c := cells[cell];
      if !c.CanPlace(c.region, isolation, units) {
        return Some(InvalidArgument);
      }
      var placement := Placement(env, cell, c.region, isolation, true, units);
      var grown := c.Allocate(units);
      if grown.None? {
        return Some(Capacity);
      }
      cells := cells[cell := grown.value];
      if id in placements {
        return Some(Conflict);
      }
      placements := placements[id := placement];
      var e := envs[env];
      if e.placement.Some? && e.placement.value != id {
        return Some(Conflict);
      }
      envs := envs[env := e.(placement := Some(id))];
      return None;
    }

    /** Where the release goes: the sticky placement's cell, or the scheduler's first choice. */
    method LocateCell(env: Id, config: Config, units: int) returns (spot: Result<Spot>)
      requires Pinned(cells, placements, envs)
      ensures spot == Locate(State(), env, config, units)
    {
      var current := GetCurrentPlacement(env);
      if current.Some? {
        var p := placements[current.value];
        if p.cell !in cells {
          return Err(Internal);
        }
        if p.region != config.region || p.isolation != config.isolation {
          return Err(Conflict);
        }
        return Ok(Spot(p.cell, current));
      }
      var choice := Select(cells, config.region, config.isolation, units);
      if choice.None? {
        return Err(Capacity);
      }
      BestUnique(cells, config.region, config.isolation, units, choice.value, Best(cells, config.region, config.isolation, units).value);
      return Ok(Spot(choice.value, None));
    }

    method InsertNewRelease(tenant: Id, application: Id, env: Id, artifact: string, config: Config, rollbackOf: Option<Id>,
                            id: Id, key: RequestKey, fingerprint: Fingerprint) returns (answer: Result<Id>)
      modifies this`releases, this`requests
      ensures var release := NewRelease(tenant, application, env, artifact, config, rollbackOf);
              Answered(if release.None? then Err(InvalidArgument) else Insert(old(State()), id, release.value, key, fingerprint), answer, State())
    {
      hide Normal;
      var normalized := NormalizeReleaseConfig(config);
      if normalized.None? {
        return Err(InvalidArgument);
      }
      var again := NormalizeReleaseConfig(normalized.value);
      if again.None? {
        return Err(InvalidArgument);
      }
      if id in releases {
        return Err(Conflict);
      }
      var release := Release(tenant, application, env, artifact, normalized.value, Identity(env, artifact, again.value), rollbackOf, Validated);
      releases := releases[id := release];
      requests := requests[key := Remembered(fingerprint, id)];
      return Ok(id);
    }

    method CreateFresh(req: Request, units: int, id: Id, placement: Id, spot: Spot, config: Config) returns (answer: Result<Id>)
      requires req.env in envs && spot.cell in cells && (spot.current.Some? ==> spot.current.value in placements) && OneEach(releases)
      modifies this
      ensures Answered(Fresh(old(State()), req, units, id, placement, spot, config), answer, State())
    {
      hide Normal, OneEach, NewRelease, Resize, Place, Insert;
      var key := RequestKey(req.tenant, CreateScope, req.key);
      var fingerprint := OfCreate(req.application, req.env, req.artifact, config);
      var normalized := NormalizeReleaseConfig(config);
      if normalized.None? {
        return Err(InvalidArgument);
      }
      var existing := FindReleaseByIdentity(req.tenant, req.env, Identity(req.env, req.artifact, normalized.value));
      if existing.Some? {
        if spot.current.None? {
          return Err(Internal);
        }
        requests := requests[key := Remembered(fingerprint, existing.value)];
        return Ok(existing.value);
      }
      var failure: Option<Code>;
      if spot.current.Some? {
        failure := ResizePlacement(spot.current.value, units);
      } else {
        failure := PlaceEnvironment(placement, req.env, spot.cell, req.config.isolation, units);
      }
      if failure.Some? {
        return Err(failure.value);
      }
      answer := InsertNewRelease(req.tenant, req.application, req.env, req.artifact, config, None, id, key, fingerprint);
    }

    method CreateRelease(req: Request, units: int, id: Id, placement: Id) returns (answer: Result<Id>)
      requires Pinned(cells, placements, envs) && OneEach(releases)
      modifies this
      ensures Answered(Creating(old(State()), req, units, id, placement), answer, State())
    {
      hide Normal, Pinned, OneEach, Fresh, Locate;
      if req.env !in envs || envs[req.env].application != req.application || envs[req.env].tenant != req.tenant {
        return Err(NotFound);
      }
      var spot := LocateCell(req.env, req.config, units);
      if spot.Err? {
        return Err(spot.code);
      }
      var config := req.config.(hostname := Hostname(req.application, envs[req.env].name, cells[spot.value.cell].domain));
      var key := RequestKey(req.tenant, CreateScope, req.key);
      if key in requests {
        if requests[key].fingerprint != OfCreate(req.application, req.env, req.artifact, config) {
          return Err(Conflict);
        }
        if requests[key].release !in releases || spot.value.current.None? {
          return Err(Internal);
        }
        return Ok(requests[key].release);
      }
      answer := CreateFresh(req, units, id, placement, spot.value, config);
    }

    method RollBack(plan: Plan, id: Id) returns (answer: Result<Id>)
      requires Pinned(cells, placements, envs) && plan.env in envs && plan.target in releases
      modifies this
      ensures Answered(RollingBack(old(State()), plan, id), answer, State())
    {
      hide Normal, Pinned, NewRelease, Resize, Insert;
      var e := envs[plan.env];
      var artifact := releases[plan.target].artifact;
      var key := RequestKey(e.tenant, RollbackScope, plan.key);
      var fingerprint := OfRollback(plan.env, plan.target, plan.critical);
      var current := GetCurrentPlacement(plan.env);
      if key in requests {
        if requests[key].fingerprint != fingerprint {
          return Err(Conflict);
        }
        if requests[key].release !in releases || current.None? {
          return Err(Internal);
        }
        return Ok(requests[key].release);
      }
      if current.None? || current.value != plan.placement {
        return Err(Conflict);
      }
      if placements[plan.placement].region != plan.config.region || placements[plan.placement].isolation != plan.config.isolation {
        return Err(Conflict);
      }
      var failure := ResizePlacement(plan.placement, plan.units);
      if failure.Some? {
        return Err(failure.value);
      }
      answer := InsertNewRelease(e.tenant, e.application, plan.env, artifact, plan.config, Some(plan.target), id, key, fingerprint);
    }

    /** The deployment row of Deploy's second transaction, and what to render if it is still pending. */
    method PrepareDeployment(r: Id) returns (out: Result<Option<Manifest>>)
      requires Pinned(cells, placements, envs) && r in releases
      modifies this`deployments
      ensures match Preparing(old(State()), r)
              case Ok(p) => out == Ok(p.1) && State() == p.0
              case Err(c) => out == Err(c)
    {
      var env := releases[r].env;
      if env !in envs {
        return Err(Internal);
      }
      var current := GetCurrentPlacement(env);
      if current.None? || placements[current.value].cell !in cells {
        return Err(Internal);
      }
      if r !in deployments {
        deployments := deployments[r := Deployment(current.value, envs[env].active, Pending, "")];
      }
      if deployments[r].phase != Pending {
        return Ok(None);
      }
      return Ok(Some(Manifest(r, envs[env].active, placements[current.value].cell)));
    }

    method RecordGitCommit(r: Id, c: GitCommit) returns (failure: Option<Code>)
      modifies this`commits, this`deployments, this`releases
      ensures Ends(Recording(old(State()), r, c), failure, State())
    {
      if r in commits {
        if commits[r].sha != c.sha || commits[r].manifest != c.manifest {
          return Some(Conflict);
        }
        return None;
      }
      if r !in releases || r !in deployments {
        return Some(NotFound);
      }
      var d := deployments[r];
      if d.placement !in placements {
        return Some(Internal);
      }
      var recorded := RecordCommit(d, c.sha);
      if recorded.Err? {
        return Some(recorded.code);
      }
      var state := Turn(releases[r].state, CommittedToGitOps);
      if state.Err? {
        return Some(state.code);
      }
      commits := commits[r := GitCommit(placements[d.placement].cell, c.manifest, c.sha)];
      deployments := deployments[r := recorded.value];
      releases := releases[r := releases[r].(state := state.value)];
      return None;
    }

    method MarkArgoSyncing(r: Id) returns (failure: Option<Code>)
      modifies this`deployments
      ensures Ends(Syncing(old(State()), r), failure, State())
    {
      if r !in deployments {
        return Some(NotFound);
      }
      if deployments[r].phase == GitCommitted {
        deployments := deployments[r := deployments[r].(phase := ArgoSyncing)];
      }
      return None;
    }

    method MarkRollingOut(r: Id) returns (failure: Option<Code>)
      modifies this`deployments, this`releases
      ensures Ends(Rolling(old(State()), r), failure, State())
    {
      if r !in deployments {
        return Some(NotFound);
      }
      if r !in releases {
        return Some(Internal);
      }
      var d, x := deployments[r], releases[r];
      match d.phase {
        case GitCommitted =>
          d := d.(phase := ArgoSyncing);
          d := d.(phase := RollingOut);
        case ArgoSyncing =>
          d := d.(phase := RollingOut);
        case Degraded =>
          d := d.(phase := RollingOut);
        case _ =>
      }
      if x.state == CommittedToGitOps {
        x := x.(state := Deploying);
      }
      deployments := deployments[r := d];
      releases := releases[r := x];
      return None;
    }

    /** Turns every other active release of the environment, in whatever order they are listed. */
    method SupersedeOthers(env: Id, r: Id)
      modifies this`releases
      ensures releases == Superseding(old(releases), env, r)
    {
      var rest := releases.Keys;
      while rest != {}
        invariant rest <= releases.Keys == old(releases).Keys
        invariant forall i | i in rest :: releases[i] == old(releases)[i]
        invariant forall i | i in releases && i !in rest :: releases[i] == Superseding(old(releases), env, r)[i]
        decreases |rest|
      {
        var i :| i in rest;
        if i != r && releases[i].env == env && releases[i].state == Active {
          releases := releases[i := releases[i].(state := Superseded)];
        }
        rest := rest - {i};
      }
    }

    method ApplyObservedStatus(r: Id, report: Report) returns (failure: Option<Code>)
      modifies this`deployments, this`releases, this`envs
      ensures Ends(Observing(old(State()), r, report), failure, State())
    {
      hide Superseding;
      if r !in deployments {
        return Some(NotFound);
      }
      if r !in releases || releases[r].env !in envs {
        return Some(Internal);
      }
      var d, x := deployments[r], releases[r];
      if d.phase == GitCommitted {
        d := d.(phase := ArgoSyncing);
      }
      if d.phase == ArgoSyncing {
        d := d.(phase := RollingOut);
      }
      if x.state == CommittedToGitOps {
        x := x.(state := Deploying);
      }
      match report {
        case ReportReady(active, wellFormed) =>
          if active != r {
            return Some(Conflict);
          }
          SupersedeOthers(x.env, r);
          if x.state == Deploying {
            x := x.(state := Active);
          }
          if !wellFormed {
            return Some(InvalidArgument);
          }
          var ready := Move(d.phase, Ready);
          if ready.Err? {
            return Some(ready.code);
          }
          d := d.(phase := Ready);
          envs := envs[x.env := envs[x.env].(active := Some(r))];
        case ReportDegraded =>
          var degraded := Move(d.phase, Degraded);
          if degraded.Err? {
            return Some(degraded.code);
          }
          d := d.(phase := Degraded);
        case ReportOther =>
          if d.phase == Degraded {
            d := d.(phase := RollingOut);
          }
      }
      deployments := deployments[r := d];
      releases := releases[r := x];
      return None;
    }
  }

  /** The GitOps repository: one immutable index entry per release. */
  class Repository {
    var git: map<Id, GitCommit>

    method Commit(m: Manifest, sha: string) returns (out: Result<GitCommit>)
      modifies this
      ensures match Pushing(old(git), m, sha)
              case Ok(p) => out == Ok(p.1) && git == p.0
              case Err(c) => out == Err(c) && git == old(git)
    {
      if m.release in git {
        var existing := git[m.release];
        if existing.manifest != m || existing.cell != m.cell {
          return Err(Conflict);
        }
        return Ok(existing);
      }
      git := git[m.release := GitCommit(m.cell, m, sha)];
      return Ok(git[m.release]);
    }

    method FindByRelease(cell: Id, r: Id) returns (out: Result<Option<GitCommit>>)
      ensures out == Finding(git, r, cell)
    {
      if r !in git {
        return Ok(None);
      }
      if git[r].cell != cell {
        return Err(Conflict);
      }
      return Ok(Some(git[r]));
    }
  }

  /** The service: a sequence of transactions with a push between two of them. */
  class Service {
    const repository: Repository
    var db: DB

    constructor (db: DB, repository: Repository)
      ensures this.db == db && this.repository == repository
    {
      this.db, this.repository := db, repository;
    }

    /** Normalises the request and replays a remembered one; otherwise sizes it, checks the policy and runs the write
        transaction. */
    method CreateRelease(req: Request, allowed: bool, id: Id, placement: Id) returns (answer: Result<Id>)
      requires Inv(db)
      modifies this`db
      ensures var spec := Commanding(old(db), old(db), req, allowed, id, placement);
              answer == (match spec case Ok(x) => Ok(x.release) case Err(c) => Err(c))
              && db == (match spec case Ok(x) => x.db case Err(_) => old(db))
      ensures Inv(db)
    {
      hide Inv, Creating, Normal, Units, Replay;
      var config := NormalizeReleaseConfig(req.config.(hostname := ""));
      if config.None? {
        return Err(InvalidArgument);
      }
      var replay := ReplayCreateRelease(req.(config := config.value));
      if replay.Err? {
        return Err(replay.code);
      }
      if replay.value.Some? {
        return Ok(replay.value.value);
      }
      var weight := if config.value.unit in db.catalog then Some(db.catalog[config.value.unit]) else None;
      var units := RequestedUnits(weight, config.value.processes);
      if units.None? {
        return Err(InvalidArgument);
      }
      if !allowed {
        return Err(PolicyRejected);
      }
      answer := WriteRelease(req.(config := config.value), units.value, id, placement);
    }

    method WriteRelease(req: Request, units: int, id: Id, placement: Id) returns (answer: Result<Id>)
      requires Inv(db)
      modifies this`db
      ensures var spec := Creating(old(db), req, units, id, placement);
              answer == (match spec case Ok(x) => Ok(x.release) case Err(c) => Err(c))
              && db == (match spec case Ok(x) => x.db case Err(_) => old(db))
      ensures Inv(db)
    {
      hide Inv, Creating;
      Searchable(db);
      var tx := new Tx(db);
      answer := tx.CreateRelease(req, units, id, placement);
      if answer.Ok? {
        CreateKeeps(db, req, units, id, placement);
        db := tx.State();
      }
    }

    method ReplayCreateRelease(req: Request) returns (answer: Result<Option<Id>>)
      requires Inv(db)
      ensures answer == Replay(db, req)
    {
      hide Inv, Normal;
      Searchable(db);
      var key := RequestKey(req.tenant, CreateScope, req.key);
      if key !in db.requests {
        return Ok(None);
      }
      if req.env !in db.envs || db.envs[req.env].application != req.application || db.envs[req.env].tenant != req.tenant {
        return Err(NotFound);
      }
      var tx := new Tx(db);
      var current := tx.GetCurrentPlacement(req.env);
      if current.None? || db.placements[current.value].cell !in db.cells {
        return Err(Internal);
      }
      var domain := db.cells[db.placements[current.value].cell].domain;
      var config := req.config.(hostname := Hostname(req.application, db.envs[req.env].name, domain));
      var m := db.requests[key];
      if m.fingerprint != OfCreate(req.application, req.env, req.artifact, config) {
        return Err(Conflict);
      }
      if m.release !in db.releases || db.releases[m.release].application != req.application || db.releases[m.release].env != req.env {
        return Err(Internal);
      }
      return Ok(Some(m.release));
    }

    /** Prepare, render, push, record; stop simulates a failure right after the push. */
    method DeployRelease(r: Id, sha: string, stop: bool) returns (out: Result<Phase>)
      requires Inv(db) && r in db.releases
      modifies this`db, repository
      ensures Preparing(old(db), r).Err? ==> db == old(db) && repository.git == old(repository.git) && out.Err?
      ensures Preparing(old(db), r).Ok? ==>
                var (prepared, m) := Preparing(old(db), r).value;
                if m.None? then db == prepared && repository.git == old(repository.git)
                else match Pushing(old(repository.git), m.value, sha)
                  case Err(c) => out == Err(c) && db == prepared && repository.git == old(repository.git)
                  case Ok(p) =>
                    repository.git == p.0
                    && if stop || Recording(prepared, r, p.1).Err? then db == prepared && out.Err? else out == Ok(GitCommitted) && db == Recording(prepared, r, p.1).value
      ensures Inv(db)
    {
      hide Inv, Preparing, Recording, Pushing;
      Searchable(db);
      var tx := new Tx(db);
      var prepared := tx.PrepareDeployment(r);
      if prepared.Err? {
        return Err(prepared.code);
      }
      PrepareKeeps(db, r);
      db := tx.State();
      if prepared.value.None? {
        return Ok(db.deployments[r].phase);
      }
      var pushed := repository.Commit(prepared.value.value, sha);
      if pushed.Err? {
        return Err(pushed.code);
      }
      if stop {
        return Err(Internal);
      }
      var failure := RecordGitCommit(r, pushed.value);
      out := if failure.Some? then Err(failure.value) else Ok(GitCommitted);
    }

    method RecordGitCommit(r: Id, c: GitCommit) returns (failure: Option<Code>)
      requires Inv(db)
      modifies this`db
      ensures match Recording(old(db), r, c)
              case Ok(s) => failure.None? && db == s
              case Err(code) => failure == Some(code) && db == old(db)
      ensures Inv(db)
    {
      hide Inv, Recording;
      var tx := new Tx(db);
      failure := tx.RecordGitCommit(r, c);
      if failure.None? {
        RecordKeeps(db, r, c);
        db := tx.State();
      }
    }

    /** Looks for a pushed commit that was never recorded, and records it. */
    method ReconcileGitOps(r: Id) returns (failure: Option<Code>)
      requires Inv(db)
      modifies this`db
      ensures match Recovering(old(db), repository.git, r)
              case Ok(s) => failure.None? && db == s
              case Err(code) => failure == Some(code) && db == old(db)
      ensures Inv(db)
    {
      hide Inv, Recording;
      if r in db.commits {
        return None;
      }
      if r !in db.deployments {
        return Some(NotFound);
      }
      if db.deployments[r].placement !in db.placements {
        return Some(Internal);
      }
      var found := repository.FindByRelease(db.placements[db.deployments[r].placement].cell, r);
      match found {
        case Err(c) => return Some(c);
        case Ok(None) => return Some(NotFound);
        case Ok(Some(c)) => failure := RecordGitCommit(r, c);
      }
    }
  }

  lemma Searchable(db: DB)
    requires Inv(db)
    ensures Pinned(db.cells, db.placements, db.envs) && OneEach(db.releases)
  {
    hide Pinned, OneEach;
  }
}
