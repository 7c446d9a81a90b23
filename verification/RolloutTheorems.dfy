/** What the control plane promises of every run: capacity, lockstep, crash recovery, one answer per request. */
module RolloutTheorems {
  import opened Int64
  import opened Normalize
  import opened Scheduling
  import opened ControlPlane
  import opened ControlPlaneSafety
  import opened Rollout
  import Sums

  // ---------------------------------------------------------------- reachable states

  ghost predicate Reachable(w: World) {
    exists catalog, commands :: w == Run(Start(catalog), commands)
  }

  lemma ReachableSafe(w: World)
    requires Reachable(w)
    ensures Safe(w)
  {
    hide Safe;
    var catalog, commands :| w == Run(Start(catalog), commands);
    StartSafe(catalog);
    RunSafe(Start(catalog), commands);
  }

  /** Allocation is the sum of the placements and fits; an environment has one current placement and names it. */
  lemma CapacityConserved(w: World, c: Id, p: Id, q: Id)
    requires Reachable(w)
    ensures c in w.db.cells ==>
              w.db.cells[c].used == Sums.Sum(w.db.placements, UnitsOn(c)) && 0 <= w.db.cells[c].used <= w.db.cells[c].capacity
    ensures p in w.db.placements ==>
              w.db.placements[p].env in w.db.envs && w.db.envs[w.db.placements[p].env].placement == Some(p)
    ensures p in w.db.placements && q in w.db.placements && w.db.placements[p].env == w.db.placements[q].env ==> p == q
  {
    ReachableSafe(w);
    hide AllRendered, Indexed, Acknowledged, Planable, KeepsRows, Owned, Lockstep, Filed, Named, OneEach, Kept;
    assert PinnedRow(w.db.cells, w.db.placements, w.db.envs, p);
    assert PinnedRow(w.db.cells, w.db.placements, w.db.envs, q);
  }

  /** Phase, release state and commit record agree; there is at most one active release, the one the environment names. */
  lemma LockstepOverRuns(w: World, r: Id)
    requires Reachable(w)
    ensures r in w.db.deployments ==> r in w.db.releases && Match(w.db.deployments[r].phase, w.db.releases[r].state)
    ensures r in w.db.commits <==> r in w.db.deployments && !w.db.deployments[r].phase.Pending?
    ensures r in w.db.commits ==> r in w.git && w.git[r] == w.db.commits[r] && w.db.deployments[r].sha == w.git[r].sha
    ensures r in w.db.releases && w.db.releases[r].state.Active? ==>
              w.db.releases[r].env in w.db.envs && w.db.envs[w.db.releases[r].env].active == Some(r)
  {
    ReachableSafe(w);
    hide AllRendered, Indexed, Acknowledged, Planable, Balanced, Pinned, Filed, OneEach, Kept;
    assert InStep(w.db.releases, w.db.deployments, w.db.commits, r);
    assert OwnedRow(w.db.envs, w.db.releases, r) && NamedRow(w.db.envs, w.db.releases, r);
  }

  /** Rollbacks aside, a tenant's environment never has two releases of one identity. */
  lemma OneReleasePerIdentity(w: World, a: Id, b: Id)
    requires Reachable(w) && a in w.db.releases && b in w.db.releases
    requires w.db.releases[a].rollbackOf.None? && w.db.releases[b].rollbackOf.None?
    requires w.db.releases[a].env == w.db.releases[b].env && w.db.releases[a].identity == w.db.releases[b].identity
    ensures a == b
  {
    ReachableSafe(w);
    Unpack(w);
    OwnedBy(w.db, a);
    OwnedBy(w.db, b);
    hide Safe, Balanced, Pinned, Owned, Lockstep, Filed, Named, Kept;
    assert SameIdentity(w.db.releases, a, b);
  }

  /** In other words: rollbacks aside, an environment's releases differ in artifact or configuration. */
  lemma OneReleasePerContent(w: World, a: Id, b: Id)
    requires Reachable(w) && a in w.db.releases && b in w.db.releases
    requires w.db.releases[a].rollbackOf.None? && w.db.releases[b].rollbackOf.None? && w.db.releases[a].env == w.db.releases[b].env
    ensures a == b <==> w.db.releases[a].artifact == w.db.releases[b].artifact && w.db.releases[a].config == w.db.releases[b].config
  {
    hide Safe, Balanced, Pinned, Lockstep, Filed, Named, OneEach, Kept, Normal, ReleaseIdentity, Reachable;
    var x, y := w.db.releases[a], w.db.releases[b];
    ReachableSafe(w);
    Unpack(w);
    assert OwnedRow(w.db.envs, w.db.releases, a) && OwnedRow(w.db.envs, w.db.releases, b);
    SameNormalSameIdentity(x.env, x.artifact, x.config, y.config);
    if x.artifact == y.artifact && x.config == y.config {
      OneReleasePerIdentity(w, a, b);
    }
  }

  // ---------------------------------------------------------------- broken references never surface

  lemma PlacedEnv(db: DB, e: Id)
    requires Inv(db) && e in db.envs
    ensures Current(db.placements, e) == db.envs[e].placement
    ensures db.envs[e].placement.Some? ==>
              var p := db.envs[e].placement.value;
              p in db.placements && db.placements[p].env == e && db.placements[p].cell in db.cells && db.placements[p].units > 0
  {
    CurrentIs(db, e);
    hide Balanced, Owned, Lockstep, Filed, Named, OneEach, Kept;
    assert PinnedEnv(db.placements, db.envs, e);
    assert db.envs[e].placement.Some? ==> PinnedRow(db.cells, db.placements, db.envs, db.envs[e].placement.value);
  }

  lemma OwnedBy(db: DB, r: Id)
    requires Inv(db) && r in db.releases
    ensures var x := db.releases[r]; x.env in db.envs && db.envs[x.env].tenant == x.tenant && db.envs[x.env].placement.Some?
  {
    hide Balanced, Pinned, Lockstep, Filed, Named, OneEach, Kept;
    assert OwnedRow(db.envs, db.releases, r);
  }

  lemma Steps(db: DB, r: Id)
    requires Inv(db)
    ensures InStep(db.releases, db.deployments, db.commits, r)
  {
    hide Balanced, Pinned, Owned, Filed, Named, OneEach, Kept, InStep;
  }

  lemma Remembers(db: DB, k: RequestKey)
    requires Inv(db) && k in db.requests
    ensures var m := db.requests[k];
            m.release in db.releases && Answers(k, m.fingerprint, db.releases[m.release]) && Identified(m.fingerprint, db.releases[m.release])
  {
    hide Balanced, Pinned, Owned, Lockstep, Filed, Named, OneEach;
    assert KeptRow(db.releases, db.requests, k);
  }

  lemma DeploymentPlaced(db: DB, r: Id)
    requires Inv(db) && r in db.deployments
    ensures r in db.releases && db.releases[r].env in db.envs && db.envs[db.releases[r].env].placement == Some(db.deployments[r].placement)
    ensures db.deployments[r].placement in db.placements
  {
    Steps(db, r);
    OwnedBy(db, r);
    PlacedEnv(db, db.releases[r].env);
    hide Balanced, Pinned, Owned, Lockstep, Named, OneEach, Kept;
    assert FiledRow(db.placements, db.envs, db.releases, db.deployments, db.commits, r);
  }

  lemma ResizeNeverInternal(db: DB, p: Id, units: int)
    requires p in db.placements && db.placements[p].cell in db.cells
    ensures Resize(db, p, units) != Err(Internal)
  {}

  lemma CreateNeverInternal(db: DB, req: Request, units: int, id: Id, placement: Id)
    requires Inv(db)
    ensures Creating(db, req, units, id, placement) != Err(Internal)
  {
    hide Inv, NewRelease, ReleaseIdentity;
    if req.env in db.envs {
      PlacedEnv(db, req.env);
      var spot := Locate(db, req.env, req.config, units);
      if spot.Ok? {
        var config := Effective(db, req, spot.value.cell);
        var key := RequestKey(req.tenant, CreateScope, req.key);
        if key in db.requests {
          Remembers(db, key);
          OwnedBy(db, db.requests[key].release);
        } else {
          FreshNeverInternal(db, req, units, id, placement, spot.value, config);
        }
      }
    }
  }

  /** The one internal error a caller can meet: reusing a key for an environment that has no placement yet, which the
      replay reports before it compares the requests. */
  lemma ReplayInternalExactly(db: DB, req: Request)
    requires Inv(db)
    ensures Replay(db, req) == Err(Internal) <==>
              && RequestKey(req.tenant, CreateScope, req.key) in db.requests
              && req.env in db.envs && db.envs[req.env].application == req.application && db.envs[req.env].tenant == req.tenant
              && db.envs[req.env].placement.None?
  {
    hide Inv;
    var key := RequestKey(req.tenant, CreateScope, req.key);
    if key in db.requests && req.env in db.envs {
      PlacedEnv(db, req.env);
      Remembers(db, key);
    }
  }

  lemma FreshNeverInternal(db: DB, req: Request, units: int, id: Id, placement: Id, spot: Spot, config: Config)
    requires Inv(db) && req.env in db.envs && spot.cell in db.cells && spot.current == db.envs[req.env].placement
    requires spot.current.Some? ==> spot.current.value in db.placements && db.placements[spot.current.value].cell in db.cells
    ensures Fresh(db, req, units, id, placement, spot, config) != Err(Internal)
  {
    hide Inv, NewRelease, ReleaseIdentity;
    var identity := ReleaseIdentity(req.env, req.artifact, config);
    if identity.Some? {
      var existing := FindByIdentity(db.releases, req.tenant, req.env, identity.value);
      if existing.Some? {
        OwnedBy(db, existing.value);
      }
    }
  }

  /** No writing transaction ever finds a dangling reference: their internal error paths are dead. */
  lemma NeverInternal(w: World, c: Command)
    requires Reachable(w)
    ensures c.CreateRelease? ==> Admitted(w.db, c) != Err(Internal)
    ensures c.PlanRollback? ==> Planning(w.db, c.rollback, c.allowed) != Err(Internal)
    ensures c.Rollback? && c.plan in w.plans ==>
              c.plan.env in w.db.envs && c.plan.target in w.db.releases && RollingBack(w.db, c.plan, c.id) != Err(Internal)
    ensures c.Prepare? && c.release in w.db.releases ==> Preparing(w.db, c.release).Ok?
    ensures c.Record? ==> Recording(w.db, c.ack.release, c.ack.commit) != Err(Internal)
    ensures c.Find? ==> Recovering(w.db, w.git, c.release) != Err(Internal)
    ensures c.Roll? ==> Rolling(w.db, c.release) != Err(Internal)
    ensures c.Observe? ==> Observing(w.db, c.release, c.report) != Err(Internal)
  {
    hide Inv, Safe, Creating, Planning, RollingBack, Preparing, Recording, Recovering;
    ReachableSafe(w);
    Unpack(w);
    if c.CreateRelease? {
      AdmittedNeverInternal(w.db, c);
    } else if c.PlanRollback? {
      PlanNeverInternal(w.db, c.rollback, c.allowed);
    } else if c.Rollback? && c.plan in w.plans {
      RollbackNeverInternal(w.db, c.plan, c.id);
    } else if c.Prepare? && c.release in w.db.releases {
      PrepareSucceeds(w.db, c.release);
    } else if c.Record? {
      RecordNeverInternal(w.db, c.ack.release, c.ack.commit);
    } else if c.Find? {
      RecoverNeverInternal(w.db, w.git, c.release);
    } else if c.Roll? && c.release in w.db.deployments {
      DeploymentPlaced(w.db, c.release);
    } else if c.Observe? && c.release in w.db.deployments {
      DeploymentPlaced(w.db, c.release);
    }
  }

  lemma AdmittedNeverInternal(db: DB, c: Command)
    requires Inv(db) && c.CreateRelease?
    ensures Admitted(db, c) != Err(Internal)
  {
    hide Inv, Creating, Normal, Units;
    var a := Admit(db.catalog, c.req, c.allowed);
    if a.Ok? {
      CreateNeverInternal(db, a.value.0, a.value.1, c.id, c.placement);
    }
  }

  lemma PlanNeverInternal(db: DB, req: RollbackRequest, allowed: bool)
    requires Inv(db)
    ensures Planning(db, req, allowed) != Err(Internal)
  {
    hide Inv, Normal, Units;
    if req.env in db.envs {
      PlacedEnv(db, req.env);
      var key := RequestKey(db.envs[req.env].tenant, RollbackScope, req.key);
      if key in db.requests {
        Remembers(db, key);
        OwnedBy(db, db.requests[key].release);
      } else if req.target in db.releases {
        OwnedBy(db, req.target);
      }
    }
  }

  lemma RollbackNeverInternal(db: DB, plan: Plan, id: Id)
    requires Inv(db) && plan.env in db.envs && plan.target in db.releases
    ensures RollingBack(db, plan, id) != Err(Internal)
  {
    hide Inv, NewRelease;
    PlacedEnv(db, plan.env);
    var key := RequestKey(db.envs[plan.env].tenant, RollbackScope, plan.key);
    if key in db.requests {
      Remembers(db, key);
      OwnedBy(db, db.requests[key].release);
    } else if Current(db.placements, plan.env) == Some(plan.placement) {
      ResizeNeverInternal(db, plan.placement, plan.units);
    }
  }

  lemma PrepareSucceeds(db: DB, r: Id)
    requires Inv(db) && r in db.releases
    ensures Preparing(db, r).Ok?
  {
    hide Inv;
    OwnedBy(db, r);
    PlacedEnv(db, db.releases[r].env);
  }

  lemma RecordNeverInternal(db: DB, r: Id, c: GitCommit)
    requires Inv(db)
    ensures Recording(db, r, c) != Err(Internal)
  {
    hide Inv;
    if r in db.deployments {
      DeploymentPlaced(db, r);
    }
  }

  lemma RecoverNeverInternal(db: DB, git: map<Id, GitCommit>, r: Id)
    requires Inv(db)
    ensures Recovering(db, git, r) != Err(Internal)
  {
    hide Inv, Recording;
    if r in db.deployments {
      DeploymentPlaced(db, r);
      if r in git {
        RecordNeverInternal(db, r, git[r]);
      }
    }
  }

  // ---------------------------------------------------------------- crash recovery of the push

  /** Recording an indexed release that is still pending commits it, provided its hash is well formed. */
  lemma RecordPending(w: World, r: Id)
    requires Safe(w) && r in w.git && r !in w.db.commits
    ensures Recording(w.db, r, w.git[r]).Ok? <==> ValidSha(w.git[r].sha)
    ensures ValidSha(w.git[r].sha) ==>
              Recording(w.db, r, w.git[r]) == Ok(w.db.(
                commits := w.db.commits[r := w.git[r]],
                deployments := w.db.deployments[r := w.db.deployments[r].(phase := GitCommitted, sha := w.git[r].sha)],
                releases := w.db.releases[r := w.db.releases[r].(state := CommittedToGitOps)]))
  {
    Unpack(w);
    RenderedOf(w, r);
    hide Safe, Inv;
    Steps(w.db, r);
    DeploymentPlaced(w.db, r);
  }

  /** A worker stopped anywhere between the push and its record, and any run went by: recovery still records exactly the
      pushed commit. It fails only if the repository answered with a malformed hash, as the worker itself would have. */
  lemma RecoverAnyTime(w: World, commands: seq<Command>, r: Id)
    requires Safe(w) && r in w.git
    ensures var v := Run(w, commands);
            && r in v.git && v.git[r] == w.git[r]
            && (Recovering(v.db, v.git, r).Ok? <==> r in v.db.commits || ValidSha(w.git[r].sha))
            && (Recovering(v.db, v.git, r).Ok? ==> r in Recovering(v.db, v.git, r).value.commits && Recovering(v.db, v.git, r).value.commits[r] == w.git[r])
            && (r !in v.db.commits ==> Recovering(v.db, v.git, r) == Recording(v.db, r, w.git[r]))
  {
    var v := Run(w, commands);
    RunSafe(w, commands);
    Unpack(v);
    RenderedOf(v, r);
    hide Safe, Inv, Run, Extends, Recording;
    if r !in v.db.commits {
      DeploymentPlaced(v.db, r);
      RecordPending(v, r);
    }
  }

  /** The world just after a worker pushed and before it recorded anything. */
  ghost function Stopped(w: World, r: Id, sha: string): World
    requires r in w.db.releases && Preparing(w.db, r).Ok? && Preparing(w.db, r).value.1.Some?
  {
    Step(Prepared(w, r), Push(Preparing(w.db, r).value.1.value, sha))
  }

  /** One worker's whole deployment, without interruption. */
  ghost function Deployed(w: World, r: Id, sha: string): World
    requires r in w.db.releases && Preparing(w.db, r).Ok? && Preparing(w.db, r).value.1.Some?
  {
    var v := Stopped(w, r, sha);
    if r in v.git then Step(v, Record(Ack(r, v.git[r]))) else v
  }

  lemma StoppedHolds(w: World, r: Id, sha: string)
    requires Safe(w) && r in w.db.releases && Preparing(w.db, r).Ok? && Preparing(w.db, r).value.1.Some?
    requires Pushing(w.git, Preparing(w.db, r).value.1.value, sha).Ok?
    ensures var v := Stopped(w, r, sha);
            && Safe(v) && v.db == Preparing(w.db, r).value.0 && r in v.git && Ack(r, v.git[r]) in v.acks
            && v.git[r].manifest == Preparing(w.db, r).value.1.value
  {
    hide Safe, Inv, Preparing;
    PrepareSafe(w, r);
    PushSafe(Prepared(w, r), Preparing(w.db, r).value.1.value, sha);
    RendersItself(w.db, r);
  }

  lemma RendersItself(db: DB, r: Id)
    requires r in db.releases && Preparing(db, r).Ok? && Preparing(db, r).value.1.Some?
    ensures Preparing(db, r).value.1.value.release == r
  {}

  /** Stopping after the push and recovering gives the very state of an uninterrupted deployment. */
  lemma RecoveryIsUninterrupted(w: World, r: Id, sha: string)
    requires Safe(w) && r in w.db.releases && Preparing(w.db, r).Ok? && Preparing(w.db, r).value.1.Some?
    requires Pushing(w.git, Preparing(w.db, r).value.1.value, sha).Ok?
    ensures var v := Stopped(w, r, sha); r in v.git && Commit(v, Recovering(v.db, v.git, r)) == Deployed(w, r, sha)
  {
    hide Safe, Inv, Extends, Preparing, Recovering, Stopped, Pushing, Recording;
    var v := Stopped(w, r, sha);
    StoppedHolds(w, r, sha);
    RecoverAnyTime(v, [], r);
    assert Run(v, []) == v;
    if r in v.db.commits {
      RecordedAgain(v, r);
    }
  }

  lemma RecordedAgain(w: World, r: Id)
    requires Safe(w) && r in w.db.commits
    ensures r in w.git && Recording(w.db, r, w.git[r]) == Ok(w.db) && Recovering(w.db, w.git, r) == Ok(w.db)
  {
    Unpack(w);
  }

  /** The repository and the commit records are write-once over any run: at most one commit per release. */
  lemma OneCommitPerRelease(w: World, commands: seq<Command>, r: Id)
    requires Safe(w)
    ensures var v := Run(w, commands);
            && (r in w.git ==> r in v.git && v.git[r] == w.git[r])
            && (r in w.db.commits ==> r in v.db.commits && v.db.commits[r] == w.db.commits[r])
            && (r in v.db.commits ==> r in v.git && v.db.commits[r] == v.git[r])
  {
    RunSafe(w, commands);
    Unpack(Run(w, commands));
    hide Safe, Inv, Run, KeepsCells, KeepsPlacements, KeepsEnvs, KeepsReleases, KeepsDeployments;
  }

  /** Deploying again after the push: it converges on the same commit exactly while the environment's active release is
      the one the pushed manifest names. */
  lemma RetryConverges(w: World, r: Id, sha: string)
    requires Safe(w) && r in w.git && r !in w.db.commits
    ensures r in w.db.releases && Preparing(w.db, r).Ok? && Preparing(w.db, r).value.0 == w.db && Preparing(w.db, r).value.1.Some?
    ensures var p := Pushing(w.git, Preparing(w.db, r).value.1.value, sha);
            && (p.Ok? <==> w.db.releases[r].env in w.db.envs && w.db.envs[w.db.releases[r].env].active == w.git[r].manifest.active)
            && (p.Ok? ==> p.value == (w.git, w.git[r]))
  {
    Unpack(w);
    RenderedOf(w, r);
    hide Safe, Inv;
    Steps(w.db, r);
    DeploymentPlaced(w.db, r);
    PlacedEnv(w.db, w.db.releases[r].env);
  }

  /** The observer's check of the deployed spec: of all it compares, only the previous release can differ. */
  predicate SpecAccepted(db: DB, m: Manifest) {
    m.release in db.deployments && m.active == db.deployments[m.release].previous
  }

  /** A retry that renders after another release became active pushes a manifest the observer will reject for ever. */
  lemma OvertakenRetry(w: World, r: Id, sha: string, commands: seq<Command>)
    requires Safe(w) && r in w.db.deployments && w.db.deployments[r].phase.Pending? && r !in w.git
    ensures r in w.db.releases && Preparing(w.db, r).Ok? && Preparing(w.db, r).value.1.Some? && w.db.releases[r].env in w.db.envs
    ensures var v := Run(Stopped(w, r, sha), commands);
            r in v.git && (SpecAccepted(v.db, v.git[r].manifest) <==> w.db.envs[w.db.releases[r].env].active == w.db.deployments[r].previous)
  {
    hide Safe, Inv, Run, KeepsCells, KeepsPlacements, KeepsEnvs, KeepsReleases;
    Unpack(w);
    DeploymentPlaced(w.db, r);
    PrepareSucceeds(w.db, r);
    assert Preparing(w.db, r).value.0 == w.db;
    StoppedHolds(w, r, sha);
    RunSafe(Stopped(w, r, sha), commands);
  }

  // ---------------------------------------------------------------- activation

  /** A ready observation names the release in its environment, and makes it active unless it had been superseded; then
      no release of the environment is active at all. */
  lemma ReadyActivates(db: DB, r: Id, report: Report)
    requires Inv(db) && report.ReportReady? && Observing(db, r, report).Ok?
    ensures var s := Observing(db, r, report).value; r in s.releases && s.releases[r].env in s.envs && s.envs[s.releases[r].env].active == Some(r)
    ensures var s := Observing(db, r, report).value; s.releases[r].state.Active? <==> !db.releases[r].state.Superseded?
    ensures var s := Observing(db, r, report).value;
            db.releases[r].state.Superseded? ==> forall i | i in s.releases && s.releases[i].env == s.releases[r].env :: !s.releases[i].state.Active?
  {
    Steps(db, r);
    hide Inv;
  }

  // ---------------------------------------------------------------- what a new release gets

  /** A command that makes a new release leaves its environment placed with exactly the units it asked for. */
  lemma NewReleaseSized(db: DB, req: Request, units: int, id: Id, placement: Id)
    requires Inv(db) && Creating(db, req, units, id, placement).Ok?
    requires Creating(db, req, units, id, placement).value.release !in db.releases
    ensures var s := Creating(db, req, units, id, placement).value.db;
            && req.env in s.envs && s.envs[req.env].placement.Some? && s.envs[req.env].placement.value in s.placements
            && s.placements[s.envs[req.env].placement.value].units == units
  {
    hide Inv, NewRelease, ReleaseIdentity, Place, Resize;
    PlacedEnv(db, req.env);
    var spot := Locate(db, req.env, req.config, units).value;
    assert Room(db, req, units, placement, spot).Ok?;
    RoomSized(db, req, units, placement, spot);
  }

  lemma RoomSized(db: DB, req: Request, units: int, placement: Id, spot: Spot)
    requires req.env in db.envs && spot.cell in db.cells && spot.current == db.envs[req.env].placement
    requires spot.current.Some? ==> spot.current.value in db.placements
    requires Room(db, req, units, placement, spot).Ok?
    ensures var s := Room(db, req, units, placement, spot).value;
            && req.env in s.envs && s.envs[req.env].placement.Some? && s.envs[req.env].placement.value in s.placements
            && s.placements[s.envs[req.env].placement.value].units == units
  {
    if spot.current.Some? {
      ResizeFrame(db, spot.current.value, units);
    }
  }

  /** Moving a normal configuration elsewhere only changes where it runs. */
  lemma MovedNormal(c: Config, region: string, isolation: Isolation, hostname: string)
    requires Normal(c) == Some(c)
    ensures var m := Normal(c.(region := region, isolation := isolation, hostname := hostname));
            m.Some? ==> m.value == c.(region := Clean(region), isolation := isolation, hostname := Clean(hostname))
  {
    hide CleanProcesses, ValidScalars, ValidProcess, Routable, Clean, Trim;
  }

  lemma PlansTheTarget(db: DB, req: RollbackRequest, allowed: bool)
    requires Inv(db) && Planning(db, req, allowed).Ok? && Planning(db, req, allowed).value.Planned?
    ensures var p := Planning(db, req, allowed).value.plan;
            req.target in db.releases && Normal(p.config) == Some(p.config) && p.env == req.env && p.target == req.target
            && var c := db.releases[req.target].config;
               p.config == c.(region := p.config.region, isolation := p.config.isolation, hostname := p.config.hostname)
  {
    hide Balanced, Pinned, Lockstep, Filed, Named, OneEach, Kept, Units, Normal;
    assert OwnedRow(db.envs, db.releases, req.target);
    var e, p := db.envs[req.env], Current(db.placements, req.env).value;
    var hostname := Hostname(e.application, e.name, db.cells[db.placements[p].cell].domain);
    MovedNormal(db.releases[req.target].config, db.placements[p].region, db.placements[p].isolation, hostname);
    NormalIdempotent(db.releases[req.target].config.(region := db.placements[p].region, isolation := db.placements[p].isolation, hostname := hostname));
  }

  /** A rollback planned at one time and executed at any later one makes a release of the target's artifact and
      configuration, moved to where the environment runs, and sizes the placement for it. */
  lemma RollbackRestores(before: DB, db: DB, req: RollbackRequest, allowed: bool, plan: Plan, id: Id)
    requires Inv(before) && Inv(db) && Extends(before, db) && Planning(before, req, allowed) == Ok(Planned(plan))
    requires plan.env in db.envs && plan.target in db.releases
    requires RollingBack(db, plan, id).Ok? && RollingBack(db, plan, id).value.release !in db.releases
    ensures var (s, r) := (RollingBack(db, plan, id).value.db, RollingBack(db, plan, id).value.release);
            req.target in db.releases && r in s.releases && plan.placement in s.placements && s.placements[plan.placement].units == plan.units
            && var x, t := s.releases[r], db.releases[req.target];
               x.env == req.env && x.rollbackOf == Some(req.target) && x.artifact == t.artifact && x.state == Validated
               && x.config == t.config.(region := x.config.region, isolation := x.config.isolation, hostname := x.config.hostname)
               && x.config.region == s.placements[plan.placement].region && x.config.isolation == s.placements[plan.placement].isolation
  {
    hide Inv, Normal, Planning, Resize, NewRelease, KeepsCells, KeepsPlacements, KeepsEnvs, KeepsDeployments, KeepsRows;
    PlansTheTarget(before, req, allowed);
    var e := db.envs[plan.env];
    NewReleaseIdentified(e.tenant, e.application, plan.env, db.releases[plan.target].artifact, plan.config, Some(plan.target));
    ResizeFrame(db, plan.placement, plan.units);
  }

  /** Once accepted, a rollback is answered with its release for ever, whatever became of the artifact policy. */
  lemma RollbackReplays(db: DB, plan: Plan, id: Id, later: DB, tenant: Id, allowed: bool)
    requires Inv(db) && plan.env in db.envs && plan.target in db.releases && RollingBack(db, plan, id).Ok?
    requires Inv(later) && Extends(RollingBack(db, plan, id).value.db, later)
    requires tenant == "" || tenant == db.envs[plan.env].tenant
    ensures Planning(later, RollbackRequest(tenant, plan.env, plan.target, plan.critical, plan.key), allowed)
            == Ok(Replayed(RollingBack(db, plan, id).value.release))
  {
    hide Inv, Normal, Resize, NewRelease, KeepsCells, KeepsPlacements, KeepsReleases, KeepsDeployments, Drafting;
    var s := RollingBack(db, plan, id).value;
    RollbackKeeps(db, plan, id);
    assert SameEnv(db.envs[plan.env], s.db.envs[plan.env]) by {
      RollbackEnvs(db, plan, id);
    }
    assert SameEnv(s.db.envs[plan.env], later.envs[plan.env]);
    var key := RequestKey(db.envs[plan.env].tenant, RollbackScope, plan.key);
    assert key in s.db.requests && s.db.requests[key] == Remembered(OfRollback(plan.env, plan.target, plan.critical), s.release);
    Remembers(later, key);
    OwnedBy(later, s.release);
    PlacedEnv(later, plan.env);
  }

  lemma RollbackEnvs(db: DB, plan: Plan, id: Id)
    requires plan.env in db.envs && plan.target in db.releases && RollingBack(db, plan, id).Ok?
    ensures RollingBack(db, plan, id).value.db.envs == db.envs
  {
    hide Normal, NewRelease;
  }

  // ---------------------------------------------------------------- one answer per request

  /** What a key remembers, in an environment that runs where the remembered configuration says. */
  ghost predicate Recalled(db: DB, req: Request, config: Config, r: Id) {
    var key := RequestKey(req.tenant, CreateScope, req.key);
    && req.env in db.envs && db.envs[req.env].application == req.application && db.envs[req.env].tenant == req.tenant
    && db.envs[req.env].placement.Some? && db.envs[req.env].placement.value in db.placements
    && (var p := db.placements[db.envs[req.env].placement.value];
        p.cell in db.cells && Effective(db, req, p.cell) == config)
    && key in db.requests && db.requests[key] == Remembered(OfCreate(req.application, req.env, req.artifact, config), r)
  }

  /** What a successful write transaction leaves behind: also the region and isolation are those of the request. */
  ghost predicate Settled(db: DB, req: Request, config: Config, r: Id) {
    Recalled(db, req, config, r) && Suits(db.placements[db.envs[req.env].placement.value], db.placements[db.envs[req.env].placement.value].cell, req.config)
  }

  predicate Suits(p: Placement, cell: Id, config: Config) {
    p.cell == cell && p.region == config.region && p.isolation == config.isolation
  }

  lemma RoomSettles(db: DB, req: Request, units: int, placement: Id, spot: Spot, s: DB)
    requires req.env in db.envs && spot.cell in db.cells && spot.current == db.envs[req.env].placement
    requires spot.current.Some? ==> spot.current.value in db.placements && Suits(db.placements[spot.current.value], spot.cell, req.config)
    requires spot.current.None? ==> db.cells[spot.cell].region == req.config.region
    requires Room(db, req, units, placement, spot) == Ok(s)
    ensures req.env in s.envs && s.envs[req.env].placement.Some? && s.envs[req.env].placement.value in s.placements
    ensures Suits(s.placements[s.envs[req.env].placement.value], spot.cell, req.config)
    ensures spot.cell in s.cells && s.cells[spot.cell].domain == db.cells[spot.cell].domain
    ensures s.envs[req.env] == db.envs[req.env].(placement := s.envs[req.env].placement)
  {
    if spot.current.Some? {
      ResizeFrame(db, spot.current.value, units);
    }
  }

  lemma FreshSettles(db: DB, req: Request, units: int, id: Id, placement: Id, spot: Spot)
    requires Inv(db) && req.env in db.envs && db.envs[req.env].application == req.application && db.envs[req.env].tenant == req.tenant
    requires spot.cell in db.cells && spot.current == db.envs[req.env].placement
    requires spot.current.Some? ==> spot.current.value in db.placements && Suits(db.placements[spot.current.value], spot.cell, req.config)
    requires spot.current.None? ==> db.cells[spot.cell].region == req.config.region
    requires Fresh(db, req, units, id, placement, spot, Effective(db, req, spot.cell)).Ok?
    ensures var s := Fresh(db, req, units, id, placement, spot, Effective(db, req, spot.cell)).value;
            Settled(s.db, req, Effective(db, req, spot.cell), s.release)
  {
    hide Inv, NewRelease, ReleaseIdentity, Place, Resize;
    var config := Effective(db, req, spot.cell);
    var identity := ReleaseIdentity(req.env, req.artifact, config).value;
    if FindByIdentity(db.releases, req.tenant, req.env, identity).None? {
      RoomSettles(db, req, units, placement, spot, Room(db, req, units, placement, spot).value);
    }
  }

  lemma CreateSettles(db: DB, req: Request, units: int, id: Id, placement: Id)
    requires Inv(db) && Creating(db, req, units, id, placement).Ok?
    ensures var s := Creating(db, req, units, id, placement).value;
            var spot := Locate(db, req.env, req.config, units);
            spot.Ok? && req.env in db.envs && Settled(s.db, req, Effective(db, req, spot.value.cell), s.release)
  {
    hide Inv, Fresh;
    PlacedEnv(db, req.env);
    var spot := Locate(db, req.env, req.config, units).value;
    var key := RequestKey(req.tenant, CreateScope, req.key);
    if key !in db.requests {
      FreshSettles(db, req, units, id, placement, spot);
    }
  }

  lemma RecalledStays(a: DB, b: DB, req: Request, config: Config, r: Id)
    requires Recalled(a, req, config, r) && Extends(a, b)
    ensures Recalled(b, req, config, r) && (Settled(a, req, config, r) ==> Settled(b, req, config, r))
  {
    hide KeepsReleases, KeepsDeployments;
    var e := a.envs[req.env];
    assert SameEnv(e, b.envs[req.env]);
    var p := a.placements[e.placement.value];
    assert SamePlace(p, b.placements[e.placement.value]);
    assert SameCell(a.cells[p.cell], b.cells[p.cell]);
  }

  lemma RecalledReplays(db: DB, req: Request, config: Config, r: Id)
    requires Inv(db) && Recalled(db, req, config, r)
    ensures Replay(db, req) == Ok(Some(r))
  {
    hide Inv, ReleaseIdentity;
    PlacedEnv(db, req.env);
    Remembers(db, RequestKey(req.tenant, CreateScope, req.key));
  }

  lemma ReplayRecalls(db: DB, req: Request)
    requires Inv(db) && Replay(db, req).Ok? && Replay(db, req).value.Some?
    ensures exists config :: Recalled(db, req, config, Replay(db, req).value.value)
  {
    hide Inv;
    PlacedEnv(db, req.env);
    var p := db.placements[db.envs[req.env].placement.value];
    assert Recalled(db, req, Effective(db, req, p.cell), Replay(db, req).value.value);
  }

  lemma TheOne(db: DB, r: Id)
    requires Inv(db) && r in db.releases && db.releases[r].rollbackOf.None?
    ensures FindByIdentity(db.releases, db.releases[r].tenant, db.releases[r].env, db.releases[r].identity) == Some(r)
  {
    hide Balanced, Pinned, Owned, Lockstep, Filed, Named, Kept;
    var x := db.releases[r];
    var f := FindByIdentity(db.releases, x.tenant, x.env, x.identity);
    assert SameIdentity(db.releases, r, r);
    assert f.Some? ==> SameIdentity(db.releases, r, f.value);
  }

  /** In a settled state the same request, under its own key or a new one, answers with the same release and changes
      nothing but the memory of its key. */
  lemma SettledAnswers(db: DB, req: Request, config: Config, r: Id, again: Request, units: int, id: Id, placement: Id)
    requires Inv(db) && Settled(db, req, config, r) && again == req.(key := again.key)
    requires again.key == req.key || RequestKey(req.tenant, CreateScope, again.key) !in db.requests
    ensures Creating(db, again, units, id, placement) == Ok(Accepted(
              db.(requests := db.requests[RequestKey(req.tenant, CreateScope, again.key) := db.requests[RequestKey(req.tenant, CreateScope, req.key)]]), r))
  {
    hide Inv, ReleaseIdentity, NewRelease;
    var key := RequestKey(req.tenant, CreateScope, req.key);
    PlacedEnv(db, req.env);
    Remembers(db, key);
    TheOne(db, r);
    if again.key == req.key {
      assert db.requests[key := db.requests[key]] == db.requests;
    }
  }

  /** Every repetition of a successful request, after any run, is answered with the release the first one got. */
  lemma SameRequestSameRelease(w: World, req: Request, units: int, id: Id, placement: Id, v: World, commands: seq<Command>,
                               again: Request, units': int, id': Id, placement': Id)
    requires Safe(w) && Creating(w.db, req, units, id, placement).Ok? && v == w.(db := Creating(w.db, req, units, id, placement).value.db)
    requires again == req.(key := again.key)
    requires again.key == req.key || RequestKey(req.tenant, CreateScope, again.key) !in Run(v, commands).db.requests
    ensures var s := Run(v, commands).db;
            var answer := Creating(s, again, units', id', placement');
            answer.Ok? && answer.value.release == Creating(w.db, req, units, id, placement).value.release
            && answer.value.db == s.(requests := answer.value.db.requests)
  {
    Unpack(w);
    hide Safe, Inv, Extends, Creating, Settled, Recalled;
    CreateSettles(w.db, req, units, id, placement);
    CreateKeeps(w.db, req, units, id, placement);
    CreateCommits(w.db, req, units, id, placement);
    CommitSafe(w, Ok(v.db));
    RunSafe(v, commands);
    Unpack(Run(v, commands));
    hide Run;
    var config := Effective(w.db, req, Locate(w.db, req.env, req.config, units).value.cell);
    var r := Creating(w.db, req, units, id, placement).value.release;
    SettledIsRecalled(v.db, req, config, r);
    RecalledStays(v.db, Run(v, commands).db, req, config, r);
    SettledAnswers(Run(v, commands).db, req, config, r, again, units', id', placement');
  }

  lemma SettledIsRecalled(db: DB, req: Request, config: Config, r: Id)
    requires Settled(db, req, config, r)
    ensures Recalled(db, req, config, r)
  {}

  lemma CommandRecalls(seen: DB, db: DB, req: Request, allowed: bool, id: Id, placement: Id)
    requires Inv(seen) && Inv(db) && Extends(seen, db) && Commanding(seen, db, req, allowed, id, placement).Ok?
    ensures var a := Commanding(seen, db, req, allowed, id, placement).value;
            && Inv(a.db) && Extends(db, a.db) && a.db.commits == db.commits
            && Normal(req.config.(hostname := "")).Some?
            && exists config :: Recalled(a.db, req.(config := Normal(req.config.(hostname := "")).value), config, a.release)
  {
    hide Inv, Extends, Creating, Settled, Recalled, Replay, Normal, Units;
    var r := req.(config := Normal(req.config.(hostname := "")).value);
    ExtendsSelf(db);
    if Replay(seen, r).value.Some? {
      ReplayRecalls(seen, r);
      var config :| Recalled(seen, r, config, Replay(seen, r).value.value);
      RecalledStays(seen, db, r, config, Replay(seen, r).value.value);
    } else {
      var units := Admit(seen.catalog, req, allowed).value.1;
      CreateSettles(db, r, units, id, placement);
      CreateKeeps(db, r, units, id, placement);
      CreateCommits(db, r, units, id, placement);
      var config := Effective(db, r, Locate(db, r.env, r.config, units).value.cell);
      SettledIsRecalled(Creating(db, r, units, id, placement).value.db, r, config, Creating(db, r, units, id, placement).value.release);
    }
  }

  /** Repeating a whole command under its key, after any run and whatever happens between its read and its write: the same
      release, nothing changed, even if the artifact policy has turned against it. */
  lemma SameCommandSameRelease(w: World, before: seq<Command>, req: Request, allowed: bool, id: Id, placement: Id, v: World, commands: seq<Command>,
                               between: seq<Command>, allowed': bool, id': Id, placement': Id)
    requires Safe(w) && Commanding(w.db, Run(w, before).db, req, allowed, id, placement).Ok?
    requires v == Run(w, before).(db := Commanding(w.db, Run(w, before).db, req, allowed, id, placement).value.db)
    ensures var read := Run(v, commands);
            var write := Run(read, between);
            Commanding(read.db, write.db, req, allowed', id', placement')
            == Ok(Accepted(write.db, Commanding(w.db, Run(w, before).db, req, allowed, id, placement).value.release))
  {
    hide Safe, Inv, Extends, Creating, Recalled, Replay, Normal, Admit, Run;
    var u := Run(w, before);
    RunSafe(w, before);
    Unpack(w);
    Unpack(u);
    CommandRecalls(w.db, u.db, req, allowed, id, placement);
    var r := Commanding(w.db, u.db, req, allowed, id, placement).value.release;
    var normal := req.(config := Normal(req.config.(hostname := "")).value);
    var config :| Recalled(v.db, normal, config, r);
    CommitSafe(u, Ok(v.db));
    RunSafe(v, commands);
    Unpack(Run(v, commands));
    RecalledStays(v.db, Run(v, commands).db, normal, config, r);
    RecalledReplays(Run(v, commands).db, normal, config, r);
  }
}
