/** What each transaction of the control plane answers and leaves behind, case by case, over the phases, states and rows
    themselves. */
module RolloutOutcomes {
  import opened Int64
  import opened Normalize
  import opened Scheduling
  import opened ControlPlane
  import opened ControlPlaneSafety
  import opened Rollout
  import opened RolloutTheorems

  // ---------------------------------------------------------------- observed status

  /** One deployment in another phase, its release in another state, and nothing else. */
  ghost function With(db: DB, r: Id, phase: Phase, state: ReleaseState): DB
    requires r in db.deployments && r in db.releases
  {
    db.(deployments := db.deployments[r := db.deployments[r].(phase := phase)],
        releases := db.releases[r := db.releases[r].(state := state)])
  }

  /** A deployed release stands in its environment, in a state that its phase determines, except that a ready one may have
      been superseded; it has not failed. */
  lemma Stands(db: DB, r: Id)
    requires Inv(db) && r in db.deployments
    ensures r in db.releases && db.releases[r].env in db.envs
    ensures var (phase, state) := (db.deployments[r].phase, db.releases[r].state);
      && (phase == Pending ==> state == Validated)
      && (phase == GitCommitted || phase == ArgoSyncing ==> state == CommittedToGitOps)
      && (phase == RollingOut || phase == Degraded ==> state == Deploying)
      && (phase == Ready ==> state == Active || state == Superseded)
      && phase != FailedDeployment
  {
    Steps(db, r);
    DeploymentPlaced(db, r);
    hide Inv;
  }

  /** A ready report is accepted exactly if it is about the release itself, well formed, and the deployment was pushed: on
      its way to the cluster, rolling out, degraded or ready already. */
  lemma ReadyAccepted(db: DB, r: Id, about: Id, wellFormed: bool)
    requires Inv(db) && r in db.deployments
    ensures var phase := db.deployments[r].phase;
      var out := Observing(db, r, ReportReady(about, wellFormed));
      && (out.Ok? <==> (&& about == r && wellFormed
                        && (phase == GitCommitted || phase == ArgoSyncing || phase == RollingOut || phase == Degraded || phase == Ready)))
      && (out.Err? ==> out.code == if about == r && !wellFormed then InvalidArgument else Conflict)
  {
    Stands(db, r);
    hide Inv, Superseding;
  }

  /** It leaves the deployment ready, its environment naming the release, the release active unless another one had
      superseded it, and every other active release of the environment superseded. */
  lemma ReadyLeaves(db: DB, r: Id, i: Id)
    requires Inv(db) && r in db.deployments && Observing(db, r, ReportReady(r, true)).Ok?
    ensures r in db.releases && db.releases[r].env in db.envs
    ensures var s := Observing(db, r, ReportReady(r, true)).value;
      var env := db.releases[r].env;
      && s == db.(deployments := s.deployments, releases := s.releases, envs := s.envs)
      && s.deployments == db.deployments[r := db.deployments[r].(phase := Ready)]
      && s.envs == db.envs[env := db.envs[env].(active := Some(r))]
      && s.releases.Keys == db.releases.Keys
      && (i in db.releases ==> s.releases[i] == db.releases[i].(state :=
            if i == r then (if db.releases[r].state == Superseded then Superseded else Active)
            else if db.releases[i].env == env && db.releases[i].state == Active then Superseded
            else db.releases[i].state))
  {
    Stands(db, r);
    hide Inv;
  }

  /** A degraded report is accepted exactly while the deployment is between the push and readiness, and makes it degraded. */
  lemma DegradedReport(db: DB, r: Id)
    requires Inv(db) && r in db.deployments
    ensures r in db.releases
    ensures var phase := db.deployments[r].phase;
      Observing(db, r, ReportDegraded) ==
      if phase == GitCommitted || phase == ArgoSyncing || phase == RollingOut || phase == Degraded
      then Ok(With(db, r, Degraded, Deploying)) else Err(Conflict)
  {
    Stands(db, r);
    hide Inv, Superseding;
  }

  /** Any other report is accepted: a pushed deployment that is not ready rolls out, others stay as they are. */
  lemma OtherReport(db: DB, r: Id)
    requires Inv(db) && r in db.deployments
    ensures r in db.releases
    ensures var (phase, state) := (db.deployments[r].phase, db.releases[r].state);
      Observing(db, r, ReportOther) ==
      if phase == GitCommitted || phase == ArgoSyncing || phase == RollingOut || phase == Degraded
      then Ok(With(db, r, RollingOut, Deploying)) else Ok(With(db, r, phase, state))
  {
    Stands(db, r);
    hide Inv, Superseding;
  }

  /** Progress of the GitOps controller: syncing is noted once, and rolling out also takes a degraded deployment back. */
  lemma ProgressReports(db: DB, r: Id)
    requires Inv(db) && r in db.deployments
    ensures r in db.releases
    ensures var (phase, state) := (db.deployments[r].phase, db.releases[r].state);
      && Syncing(db, r) == Ok(With(db, r, if phase == GitCommitted then ArgoSyncing else phase, state))
      && Rolling(db, r) ==
         if phase == GitCommitted || phase == ArgoSyncing || phase == RollingOut || phase == Degraded
         then Ok(With(db, r, RollingOut, Deploying)) else Ok(With(db, r, phase, state))
  {
    Stands(db, r);
    hide Inv;
    assert db.deployments[r := db.deployments[r]] == db.deployments && db.releases[r := db.releases[r]] == db.releases;
  }

  lemma NoDeployment(db: DB, r: Id, report: Report)
    requires r !in db.deployments
    ensures Observing(db, r, report) == Err(NotFound) && Syncing(db, r) == Err(NotFound) && Rolling(db, r) == Err(NotFound)
  {}

  /** Whatever was observed in the meantime, a release that was once pushed and recorded can become ready at any later time,
      also from a degraded deployment: the report is accepted, and the release is active unless superseded. */
  lemma RecoversToReady(w: World, r: Id, commands: seq<Command>)
    requires Safe(w) && r in w.db.deployments && w.db.deployments[r].phase != Pending
    ensures var v := Run(w, commands);
      var u := Step(v, Observe(r, ReportReady(r, true)));
      && r in v.db.deployments && r in v.db.releases && r in u.db.deployments && r in u.db.releases
      && u.db.deployments[r].phase == Ready
      && u.db.releases[r].state == (if v.db.releases[r].state == Superseded then Superseded else Active)
      && u.db.releases[r].env in u.db.envs && u.db.envs[u.db.releases[r].env].active == Some(r)
      && (v.db.deployments[r].phase == Degraded ==> u.db.releases[r].state == Active)
  {
    hide Safe, Inv, Extends, Run, Observing;
    Unpack(w);
    Steps(w.db, r);
    RunSafe(w, commands);
    var v := Run(w, commands);
    Unpack(v);
    assert r in v.db.commits by {
      OneCommitPerRelease(w, commands, r);
    }
    Steps(v.db, r);
    Stands(v.db, r);
    ReadyAccepted(v.db, r, r, true);
    ReadyLeaves(v.db, r, r);
  }

  // ---------------------------------------------------------------- deployment, push and record

  /** Preparing a release always works: the first time it files a pending deployment on the environment's placement that
      remembers the active release, and renders for the placement's cell; later it renders again while nothing is recorded. */
  lemma PreparesExactly(db: DB, r: Id)
    requires Inv(db) && r in db.releases
    ensures db.releases[r].env in db.envs && db.envs[db.releases[r].env].placement.Some?
    ensures db.envs[db.releases[r].env].placement.value in db.placements
    ensures var env := db.envs[db.releases[r].env];
      var manifest := Manifest(r, env.active, db.placements[env.placement.value].cell);
      Preparing(db, r) ==
      if r !in db.deployments
      then Ok((db.(deployments := db.deployments[r := Deployment(env.placement.value, env.active, Pending, "")]), Some(manifest)))
      else Ok((db, if r in db.commits then None else Some(manifest)))
  {
    OwnedBy(db, r);
    PlacedEnv(db, db.releases[r].env);
    Steps(db, r);
    hide Inv;
  }

  /** A first rendering is what the observer will accept, until the environment's active release changes. */
  lemma FirstRenderingAccepted(db: DB, r: Id)
    requires Inv(db) && r in db.releases && r !in db.deployments
    ensures Preparing(db, r).Ok? && Preparing(db, r).value.1.Some?
    ensures var (s, m) := Preparing(db, r).value;
      r in s.deployments && m.value.release == r && m.value.active == s.deployments[r].previous
  {
    PreparesExactly(db, r);
    hide Inv;
  }

  /** The repository takes one manifest per release and for ever returns its first commit, under the first hash. */
  lemma PushesExactly(git: map<Id, GitCommit>, m: Manifest, sha: string)
    ensures m.release !in git ==> Pushing(git, m, sha) == Ok((git[m.release := GitCommit(m.cell, m, sha)], GitCommit(m.cell, m, sha)))
    ensures m.release in git ==>
      Pushing(git, m, sha) ==
      if git[m.release].manifest == m && git[m.release].cell == m.cell then Ok((git, git[m.release])) else Err(Conflict)
  {}

  /** A commit is recorded exactly if it is the one on record, or the first for a prepared release and its hash is 7 to 64
      characters without white space; then deployment and release are committed. */
  lemma RecordsExactly(db: DB, r: Id, c: GitCommit)
    requires Inv(db)
    ensures r in db.deployments ==> r in db.releases && db.deployments[r].placement in db.placements
    ensures Recording(db, r, c) ==
      if r in db.commits then
        if db.commits[r].sha == c.sha && db.commits[r].manifest == c.manifest then Ok(db) else Err(Conflict)
      else if r !in db.deployments then Err(NotFound)
      else if |c.sha| < 7 || |c.sha| > 64 || '\r' in c.sha || '\n' in c.sha || '\0' in c.sha || ' ' in c.sha then Err(InvalidArgument)
      else Ok(db.(
        commits := db.commits[r := GitCommit(db.placements[db.deployments[r].placement].cell, c.manifest, c.sha)],
        deployments := db.deployments[r := db.deployments[r].(phase := GitCommitted, sha := c.sha)],
        releases := db.releases[r := db.releases[r].(state := CommittedToGitOps)]))
  {
    Steps(db, r);
    if r in db.deployments {
      DeploymentPlaced(db, r);
      Stands(db, r);
    }
    hide Inv;
  }

  /** Recovery: nothing to do once recorded; otherwise the repository's own entry for the deployment's cell is recorded. */
  lemma RecoversExactly(db: DB, git: map<Id, GitCommit>, r: Id)
    requires Inv(db)
    ensures r in db.deployments ==> db.deployments[r].placement in db.placements
    ensures Recovering(db, git, r) ==
      if r in db.commits then Ok(db)
      else if r !in db.deployments || r !in git then Err(NotFound)
      else if git[r].cell != db.placements[db.deployments[r].placement].cell then Err(Conflict)
      else Recording(db, r, git[r])
  {
    if r in db.deployments {
      DeploymentPlaced(db, r);
    }
    hide Inv, Recording;
  }

  lemma ReportSteps(w: World, r: Id, report: Report)
    ensures Step(w, Sync(r)) == Commit(w, Syncing(w.db, r))
    ensures Step(w, Roll(r)) == Commit(w, Rolling(w.db, r))
    ensures Step(w, Observe(r, report)) == Commit(w, Observing(w.db, r, report))
  {}

  lemma WithTwice(db: DB, r: Id, a: Phase, b: ReleaseState, c: Phase, d: ReleaseState)
    requires r in db.deployments && r in db.releases
    ensures var s := With(db, r, a, b);
      && r in s.deployments && r in s.releases && s.deployments[r].phase == a && s.releases[r].state == b
      && With(s, r, c, d) == With(db, r, c, d)
  {
    var s := With(db, r, a, b);
    assert With(s, r, c, d).deployments == With(db, r, c, d).deployments;
    assert With(s, r, c, d).releases == With(db, r, c, d).releases;
  }

  lemma RollsOut(w: World, r: Id)
    requires Safe(w) && r in w.db.deployments && w.db.deployments[r].phase == GitCommitted
    ensures r in w.db.releases
    ensures var s := Step(Step(w, Sync(r)), Roll(r)); Safe(s) && s == w.(db := With(w.db, r, RollingOut, Deploying))
  {
    hide Safe, Inv, Observing, Syncing, Rolling, Step, With, Grows;
    Unpack(w);
    Stands(w.db, r);
    WithTwice(w.db, r, ArgoSyncing, CommittedToGitOps, RollingOut, Deploying);
    ProgressReports(w.db, r);
    StepSafe(w, Sync(r));
    ReportSteps(w, r, ReportOther);
    var synced := Step(w, Sync(r));
    Unpack(synced);
    ProgressReports(synced.db, r);
    StepSafe(synced, Roll(r));
    ReportSteps(synced, r, ReportOther);
  }

  /** A committed release that is synced, rolled out and reported ready is ready, active and named by its environment. */
  lemma ReportsToReady(w: World, r: Id)
    requires Safe(w) && r in w.db.deployments && w.db.deployments[r].phase == GitCommitted
    ensures var s := Step(Step(Step(w, Sync(r)), Roll(r)), Observe(r, ReportReady(r, true)));
      && r in s.db.deployments && s.db.deployments[r] == w.db.deployments[r].(phase := Ready)
      && r in s.db.releases && s.db.releases[r].state == Active
      && s.db.releases[r].env in s.db.envs && s.db.envs[s.db.releases[r].env].active == Some(r)
      && s.db.commits == w.db.commits && s.git == w.git
  {
    RollsOut(w, r);
    var rolled := Step(Step(w, Sync(r)), Roll(r));
    hide Safe, Inv, Observing, Syncing, Rolling, Step;
    ReportSteps(rolled, r, ReportReady(r, true));
    Unpack(rolled);
    ReadyAccepted(rolled.db, r, r, true);
    ReadyLeaves(rolled.db, r, r);
  }

  /** One worker's undisturbed deployment records the pushed commit under its hash. */
  lemma DeploysToCommitted(w: World, r: Id, sha: string)
    requires Safe(w) && r in w.db.releases && r !in w.db.deployments && r !in w.git
    requires 7 <= |sha| <= 64 && '\r' !in sha && '\n' !in sha && '\0' !in sha && ' ' !in sha
    ensures Preparing(w.db, r).Ok? && Preparing(w.db, r).value.1.Some?
    ensures var m := Preparing(w.db, r).value.1.value;
      var s := Step(Step(Prepared(w, r), Push(m, sha)), Record(Ack(r, GitCommit(m.cell, m, sha))));
      && Safe(s) && r in s.db.deployments && s.db.deployments[r].phase == GitCommitted && s.db.deployments[r].sha == sha
      && r in s.db.commits && s.db.commits[r].sha == sha && s.db.commits[r].manifest == m && r in s.git && s.git[r] == s.db.commits[r]
  {
    hide Safe, Inv, Preparing, Pushing, Recording, Extends;
    Unpack(w);
    assert r !in w.db.commits;
    PreparesExactly(w.db, r);
    var m := Preparing(w.db, r).value.1.value;
    PushesExactly(w.git, m, sha);
    PrepareSafe(w, r);
    var pushed := Step(Prepared(w, r), Push(m, sha));
    StepSafe(Prepared(w, r), Push(m, sha));
    Unpack(pushed);
    RecordsExactly(pushed.db, r, GitCommit(m.cell, m, sha));
    StepSafe(pushed, Record(Ack(r, GitCommit(m.cell, m, sha))));
  }

  /** And reported ready, it ends as the active release of its environment. */
  lemma DeploysToReady(w: World, r: Id, sha: string)
    requires Safe(w) && r in w.db.releases && r !in w.db.deployments && r !in w.git
    requires 7 <= |sha| <= 64 && '\r' !in sha && '\n' !in sha && '\0' !in sha && ' ' !in sha
    ensures Preparing(w.db, r).Ok? && Preparing(w.db, r).value.1.Some?
    ensures var m := Preparing(w.db, r).value.1.value;
      var committed := Step(Step(Prepared(w, r), Push(m, sha)), Record(Ack(r, GitCommit(m.cell, m, sha))));
      var s := Step(Step(Step(committed, Sync(r)), Roll(r)), Observe(r, ReportReady(r, true)));
      && r in s.db.deployments && s.db.deployments[r].phase == Ready && s.db.deployments[r].sha == sha
      && r in s.db.releases && s.db.releases[r].state == Active
      && s.db.releases[r].env in s.db.envs && s.db.envs[s.db.releases[r].env].active == Some(r)
      && r in s.git && s.git[r].manifest == m && s.git[r].sha == sha
  {
    hide Safe, Step, Prepared, Preparing;
    DeploysToCommitted(w, r, sha);
    var m := Preparing(w.db, r).value.1.value;
    ReportsToReady(Step(Step(Prepared(w, r), Push(m, sha)), Record(Ack(r, GitCommit(m.cell, m, sha)))), r);
  }

  // ---------------------------------------------------------------- the artifact policy

  /** The units that a configuration in normal form asks for, by the weight that the catalogue gives its unit. */
  ghost function Asked(catalog: map<string, int>, config: Config): Option<int> {
    Units(if config.unit in catalog then Some(catalog[config.unit]) else None, config.processes)
  }

  /** A command for an artifact that the policy rejects changes nothing. It succeeds only with the release remembered under
      its key, and is rejected exactly when the key is new and the request could be sized. */
  lemma RejectedArtifact(seen: DB, db: DB, req: Request, id: Id, placement: Id)
    ensures var out := Commanding(seen, db, req, false, id, placement);
      var key := RequestKey(req.tenant, CreateScope, req.key);
      var config := Normal(req.config.(hostname := ""));
      && (out.Ok? ==> key in seen.requests && out.value == Accepted(db, seen.requests[key].release))
      && (out == Err(PolicyRejected) <==> key !in seen.requests && config.Some? && Asked(seen.catalog, config.value).Some?)
  {
    hide Normal, Units;
  }

  /** An artifact that the policy allows is never rejected by it: a new key with a configuration that has a normal form and
      can be sized goes to the write transaction with both. */
  lemma AllowedArtifact(seen: DB, db: DB, req: Request, id: Id, placement: Id)
    ensures var out := Commanding(seen, db, req, true, id, placement);
      var key := RequestKey(req.tenant, CreateScope, req.key);
      var config := Normal(req.config.(hostname := ""));
      && out != Err(PolicyRejected)
      && (config.None? ==> out == Err(InvalidArgument))
      && (config.Some? && key !in seen.requests ==>
            out == match Asked(seen.catalog, config.value)
                   case None => Err(InvalidArgument)
                   case Some(units) => Creating(db, req.(config := config.value), units, id, placement))
  {
    hide Normal, Units, Creating;
    var config := Normal(req.config.(hostname := ""));
    if config.Some? && Asked(seen.catalog, config.value).Some? {
      CreatingKnowsNoPolicy(db, req.(config := config.value), Asked(seen.catalog, config.value).value, id, placement);
    }
  }

  lemma CreatingKnowsNoPolicy(db: DB, req: Request, units: int, id: Id, placement: Id)
    ensures Creating(db, req, units, id, placement) != Err(PolicyRejected)
  {
    hide Normal, Current, Best, FindByIdentity, Effective;
  }

  /** A rollback of a rejected artifact is planned exactly if it is critical and could be planned for an allowed one;
      everything but the plan is answered alike. */
  lemma RollbackPolicy(db: DB, req: RollbackRequest, allowed: bool)
    ensures Planning(db, req, true) != Err(PolicyRejected)
    ensures var out := Planning(db, req, true);
      Planning(db, req, allowed) == if !allowed && !req.critical && out.Ok? && out.value.Planned? then Err(PolicyRejected) else out
  {
    hide Normal, Units, Current;
  }

  // ---------------------------------------------------------------- rollbacks

  /** What a rollback is answered before it is written: its release if the key is known, or a plan for the target's artifact
      with the target's configuration moved to the environment's placement. */
  lemma PlansExactly(db: DB, req: RollbackRequest)
    requires Inv(db)
    ensures req.env !in db.envs || (req.tenant != "" && req.tenant != db.envs[req.env].tenant) ==> Planning(db, req, true) == Err(NotFound)
    ensures req.env in db.envs && (req.tenant == "" || req.tenant == db.envs[req.env].tenant) ==>
      var e := db.envs[req.env];
      var key := RequestKey(e.tenant, RollbackScope, req.key);
      if key in db.requests then
        Planning(db, req, true) ==
        if db.requests[key].fingerprint == OfRollback(req.env, req.target, req.critical)
        then Ok(Replayed(db.requests[key].release)) else Err(Conflict)
      else if req.target !in db.releases || db.releases[req.target].env != req.env then Planning(db, req, true) == Err(NotFound)
      else
        && e.placement.Some? && e.placement.value in db.placements && db.placements[e.placement.value].cell in db.cells
        && var p := db.placements[e.placement.value];
           var config := Normal(db.releases[req.target].config.(
             region := p.region, isolation := p.isolation, hostname := e.application + "-" + e.name + "." + db.cells[p.cell].domain));
           Planning(db, req, true) ==
           if config.None? || Asked(db.catalog, config.value).None? then Err(InvalidArgument)
           else Ok(Planned(Plan(req.env, req.target, req.critical, req.key, e.placement.value, config.value, Asked(db.catalog, config.value).value)))
  {
    if req.env in db.envs {
      PlacedEnv(db, req.env);
      var key := RequestKey(db.envs[req.env].tenant, RollbackScope, req.key);
      if key in db.requests {
        Remembers(db, key);
        OwnedBy(db, db.requests[key].release);
      } else if req.target in db.releases {
        OwnedBy(db, req.target);
      }
    }
    hide Inv, Normal, Units;
  }

  /** What a planned rollback writes, at whatever later time: the answer on record, a refusal if the environment is placed or
      configured otherwise by then, or the resized placement and a new validated release of the target's artifact. */
  lemma RollsBackExactly(db: DB, plan: Plan, id: Id)
    requires Inv(db) && plan.env in db.envs && plan.target in db.releases
    ensures var e := db.envs[plan.env];
      var key := RequestKey(e.tenant, RollbackScope, plan.key);
      var fingerprint := OfRollback(plan.env, plan.target, plan.critical);
      if key in db.requests then
        RollingBack(db, plan, id) ==
        if db.requests[key].fingerprint == fingerprint then Ok(Accepted(db, db.requests[key].release)) else Err(Conflict)
      else if e.placement != Some(plan.placement) then RollingBack(db, plan, id) == Err(Conflict)
      else
        && plan.placement in db.placements
        && var p := db.placements[plan.placement];
           var resized := Resize(db, plan.placement, plan.units);
           var config := Normal(plan.config);
           RollingBack(db, plan, id) ==
           if p.region != plan.config.region || p.isolation != plan.config.isolation then Err(Conflict)
           else if resized.Err? then Err(resized.code)
           else if config.None? then Err(InvalidArgument)
           else if id in db.releases then Err(Conflict)
           else
             var x := Release(e.tenant, e.application, plan.env, db.releases[plan.target].artifact, config.value,
                              Identity(plan.env, db.releases[plan.target].artifact, config.value), Some(plan.target), Validated);
             Ok(Accepted(
               resized.value.(releases := db.releases[id := x], requests := db.requests[key := Remembered(fingerprint, id)]), id))
  {
    hide Inv, Normal, Resize, KeepsCells, KeepsPlacements, NewRelease;
    PlacedEnv(db, plan.env);
    var key := RequestKey(db.envs[plan.env].tenant, RollbackScope, plan.key);
    if key in db.requests {
      Remembers(db, key);
      OwnedBy(db, db.requests[key].release);
    } else if db.envs[plan.env].placement == Some(plan.placement) && Resize(db, plan.placement, plan.units).Ok? {
      ResizeFrame(db, plan.placement, plan.units);
    }
    var e := db.envs[plan.env];
    NewReleaseIs(e.tenant, e.application, plan.env, db.releases[plan.target].artifact, plan.config, Some(plan.target));
  }

  /** A new release: validated, with the normal form of its configuration and the identity computed from that. */
  lemma NewReleaseIs(tenant: Id, application: Id, env: Id, artifact: string, config: Config, rollbackOf: Option<Id>)
    ensures NewRelease(tenant, application, env, artifact, config, rollbackOf) ==
      match Normal(config)
      case None => None
      case Some(c) => Some(Release(tenant, application, env, artifact, c, Identity(env, artifact, c), rollbackOf, Validated))
  {
    if Normal(config).Some? {
      NormalIdempotent(config);
    }
    hide Normal;
  }

  // ---------------------------------------------------------------- capacity

  /** A placement is resized exactly if it keeps its size, shrinks to a positive one, or its active cell has room for the
      difference; cell and placement change by that difference. */
  lemma ResizesExactly(db: DB, p: Id, units: int)
    requires Inv(db) && p in db.placements
    ensures db.placements[p].cell in db.cells
    ensures var q := db.placements[p];
      var cell := db.cells[q.cell];
      Resize(db, p, units) ==
      if units == q.units then Ok(db)
      else if units > q.units && (cell.state != ActiveCell || cell.used + units - q.units > cell.capacity) then Err(Capacity)
      else if units <= 0 then Err(InvalidArgument)
      else Ok(db.(
        cells := db.cells[q.cell := cell.(used := cell.used + units - q.units)],
        placements := db.placements[p := q.(units := units)]))
  {
    PlacedAt(db, p);
    if 0 < units < db.placements[p].units {
      ShrinkSucceeds(db, p, units);
    }
    hide Inv;
  }

  lemma PlacedAt(db: DB, p: Id)
    requires Inv(db) && p in db.placements
    ensures db.placements[p].cell in db.cells && db.placements[p].units > 0
  {
    hide Balanced, Owned, Lockstep, Filed, Named, OneEach, Kept;
    assert PinnedRow(db.cells, db.placements, db.envs, p);
  }

  // ---------------------------------------------------------------- new releases

  predicate Belongs(db: DB, req: Request) {
    req.env in db.envs && db.envs[req.env].application == req.application && db.envs[req.env].tenant == req.tenant
  }

  /** The requested configuration under the hostname that it gets on a cell. */
  function Hosted(db: DB, req: Request, cell: Id): Config
    requires req.env in db.envs && cell in db.cells
  {
    req.config.(hostname := req.application + "-" + db.envs[req.env].name + "." + db.cells[cell].domain)
  }

  /** A release of the same artifact and configuration in the same environment that is no rollback. */
  predicate IsTwin(x: Release, req: Request, config: Config) {
    x.tenant == req.tenant && x.env == req.env && x.artifact == req.artifact && x.config == config && x.rollbackOf.None?
  }

  /** The database with room made for a release and the release filed under the request's key. */
  function WithRelease(room: DB, req: Request, id: Id, hosted: Config, config: Config): DB {
    var x := Release(req.tenant, req.application, req.env, req.artifact, config, Identity(req.env, req.artifact, config), None, Validated);
    room.(releases := room.releases[id := x],
          requests := room.requests[RequestKey(req.tenant, CreateScope, req.key) :=
                        Remembered(OfCreate(req.application, req.env, req.artifact, hosted), id)])
  }

  lemma TwinIdentity(db: DB, i: Id, req: Request, config: Config)
    requires Inv(db) && i in db.releases
    ensures IsTwin(db.releases[i], req, config) <==> Carries(db.releases[i], req.tenant, req.env, Identity(req.env, req.artifact, config))
  {
    hide Balanced, Pinned, Lockstep, Filed, Named, OneEach, Kept, Normal;
    assert OwnedRow(db.envs, db.releases, i);
  }

  /** What a request gets in an environment that is placed: the answer on record, a refusal, the identical release if there is
      one, or a new release on the resized placement. */
  lemma CreatesPlaced(db: DB, req: Request, units: int, id: Id, placement: Id)
    requires Inv(db) && Belongs(db, req) && db.envs[req.env].placement.Some?
    ensures db.envs[req.env].placement.value in db.placements
    ensures var p := db.envs[req.env].placement.value;
      var q := db.placements[p];
      q.cell in db.cells
      && var hosted := Hosted(db, req, q.cell);
         var config := Normal(hosted);
         var key := RequestKey(req.tenant, CreateScope, req.key);
         var fingerprint := OfCreate(req.application, req.env, req.artifact, hosted);
         var out := Creating(db, req, units, id, placement);
         if q.region != req.config.region || q.isolation != req.config.isolation then out == Err(Conflict)
         else if key in db.requests then
           out == if db.requests[key].fingerprint == fingerprint then Ok(Accepted(db, db.requests[key].release)) else Err(Conflict)
         else if config.None? then out == Err(InvalidArgument)
         else
           && (forall i | i in db.releases && IsTwin(db.releases[i], req, config.value) ::
                 out == Ok(Accepted(db.(requests := db.requests[key := Remembered(fingerprint, i)]), i)))
           && ((forall i | i in db.releases :: !IsTwin(db.releases[i], req, config.value)) ==>
                 var room := Resize(db, p, units);
                 out ==
                 if room.Err? then Err(room.code)
                 else if id in db.releases then Err(Conflict)
                 else Ok(Accepted(WithRelease(room.value, req, id, hosted, config.value), id)))
  {
    hide Inv, Normal, Resize, Fresh, KeepsCells, KeepsPlacements;
    PlacedEnv(db, req.env);
    var p := db.envs[req.env].placement.value;
    var q := db.placements[p];
    var key := RequestKey(req.tenant, CreateScope, req.key);
    if key in db.requests {
      Remembers(db, key);
    } else if q.region == req.config.region && q.isolation == req.config.isolation {
      FreshPlaced(db, req, units, id, placement, p);
    }
  }

  lemma FreshPlaced(db: DB, req: Request, units: int, id: Id, placement: Id, p: Id)
    requires Inv(db) && Belongs(db, req) && p in db.placements && db.placements[p].cell in db.cells
    requires RequestKey(req.tenant, CreateScope, req.key) !in db.requests
    ensures var hosted := Hosted(db, req, db.placements[p].cell);
      var config := Normal(hosted);
      var key := RequestKey(req.tenant, CreateScope, req.key);
      var out := Fresh(db, req, units, id, placement, Spot(db.placements[p].cell, Some(p)), hosted);
      && (config.None? ==> out == Err(InvalidArgument))
      && (config.Some? ==>
            && (forall i | i in db.releases && IsTwin(db.releases[i], req, config.value) ::
                  out == Ok(Accepted(db.(requests := db.requests[key :=
                    Remembered(OfCreate(req.application, req.env, req.artifact, hosted), i)]), i)))
            && ((forall i | i in db.releases :: !IsTwin(db.releases[i], req, config.value)) ==>
                  var room := Resize(db, p, units);
                  out ==
                  if room.Err? then Err(room.code)
                  else if id in db.releases then Err(Conflict)
                  else Ok(Accepted(WithRelease(room.value, req, id, hosted, config.value), id))))
  {
    hide Inv, Normal, Resize, KeepsCells, KeepsPlacements, NewRelease, IsTwin;
    var hosted := Hosted(db, req, db.placements[p].cell);
    NewReleaseIs(req.tenant, req.application, req.env, req.artifact, hosted, None);
    if Normal(hosted).Some? {
      var config := Normal(hosted).value;
      Twins(db, req, config);
      if Resize(db, p, units).Ok? {
        ResizeFrame(db, p, units);
      }
    }
  }

  /** Looking a release up by its identity finds the twin. */
  lemma Twins(db: DB, req: Request, config: Config)
    requires Inv(db)
    ensures var f := FindByIdentity(db.releases, req.tenant, req.env, Identity(req.env, req.artifact, config));
      && (f.None? ==> forall i | i in db.releases :: !IsTwin(db.releases[i], req, config))
      && (f.Some? ==> IsTwin(db.releases[f.value], req, config))
      && (forall i | i in db.releases && IsTwin(db.releases[i], req, config) :: f == Some(i))
  {
    hide Inv, IsTwin, Carries;
    var identity := Identity(req.env, req.artifact, config);
    forall i | i in db.releases ensures IsTwin(db.releases[i], req, config) <==> Carries(db.releases[i], req.tenant, req.env, identity) {
      TwinIdentity(db, i, req, config);
    }
    forall i | i in db.releases && IsTwin(db.releases[i], req, config) ensures FindByIdentity(db.releases, req.tenant, req.env, identity) == Some(i) {
      TwinFound(db, i, req, config);
    }
  }

  lemma TwinFound(db: DB, i: Id, req: Request, config: Config)
    requires Inv(db) && i in db.releases && IsTwin(db.releases[i], req, config)
    ensures FindByIdentity(db.releases, req.tenant, req.env, Identity(req.env, req.artifact, config)) == Some(i)
  {
    hide Inv;
    TwinIdentity(db, i, req, config);
    TheOne(db, i);
  }

  /** What a request gets in an environment that is not placed: nothing if no cell fits, else a placement on the best cell and
      a new release; the key must be new, as must be the identifiers. */
  lemma CreatesFirst(db: DB, req: Request, units: int, id: Id, placement: Id)
    requires Inv(db) && Belongs(db, req) && db.envs[req.env].placement.None?
    ensures var out := Creating(db, req, units, id, placement);
      var c := Best(db.cells, req.config.region, req.config.isolation, units);
      if c.None? then out == Err(Capacity)
      else
        && c.value in db.cells
        && var hosted := Hosted(db, req, c.value);
           var cell := db.cells[c.value];
           var config := Normal(hosted);
           out ==
           if RequestKey(req.tenant, CreateScope, req.key) in db.requests then Err(Conflict)
           else if config.None? then Err(InvalidArgument)
           else if placement in db.placements || id in db.releases then Err(Conflict)
           else Ok(Accepted(WithRelease(
             db.(cells := db.cells[c.value := cell.(used := cell.used + units)],
                 placements := db.placements[placement := Placement(req.env, c.value, req.config.region, req.config.isolation, true, units)],
                 envs := db.envs[req.env := db.envs[req.env].(placement := Some(placement))]),
             req, id, hosted, config.value), id))
  {
    hide Inv, Normal, Fresh, Recall;
    PlacedEnv(db, req.env);
    var key := RequestKey(req.tenant, CreateScope, req.key);
    var c := Best(db.cells, req.config.region, req.config.isolation, units);
    if c.Some? {
      if key in db.requests {
        RecallElsewhere(db, req, Hosted(db, req, c.value), false);
      } else {
        FreshFirst(db, req, units, id, placement, c.value);
      }
    }
  }

  lemma RecallElsewhere(db: DB, req: Request, config: Config, placed: bool)
    requires Inv(db) && Belongs(db, req) && db.envs[req.env].placement.None?
    requires RequestKey(req.tenant, CreateScope, req.key) in db.requests
    ensures Recall(db, RequestKey(req.tenant, CreateScope, req.key), OfCreate(req.application, req.env, req.artifact, config), placed) == Err(Conflict)
  {
    hide Inv;
    var key := RequestKey(req.tenant, CreateScope, req.key);
    Remembers(db, key);
    OwnedBy(db, db.requests[key].release);
  }

  lemma FreshFirst(db: DB, req: Request, units: int, id: Id, placement: Id, c: Id)
    requires Inv(db) && Belongs(db, req) && db.envs[req.env].placement.None?
    requires IsBest(db.cells, req.config.region, req.config.isolation, units, c)
    ensures var hosted := Hosted(db, req, c);
      var cell := db.cells[c];
      var config := Normal(hosted);
      Fresh(db, req, units, id, placement, Spot(c, None), hosted) ==
      if config.None? then Err(InvalidArgument)
      else if placement in db.placements || id in db.releases then Err(Conflict)
      else Ok(Accepted(WithRelease(
        db.(cells := db.cells[c := cell.(used := cell.used + units)],
            placements := db.placements[placement := Placement(req.env, c, req.config.region, req.config.isolation, true, units)],
            envs := db.envs[req.env := db.envs[req.env].(placement := Some(placement))]),
        req, id, hosted, config.value), id))
  {
    hide Inv, Normal, NewRelease, IsTwin;
    var hosted := Hosted(db, req, c);
    NewReleaseIs(req.tenant, req.application, req.env, req.artifact, hosted, None);
    if Normal(hosted).Some? {
      Twins(db, req, Normal(hosted).value);
      NoTwin(db, req, Normal(hosted).value);
    }
  }

  lemma NoTwin(db: DB, req: Request, config: Config)
    requires Inv(db) && Belongs(db, req) && db.envs[req.env].placement.None?
    ensures forall i | i in db.releases :: !IsTwin(db.releases[i], req, config)
  {
    hide Inv;
    forall i | i in db.releases ensures !IsTwin(db.releases[i], req, config) {
      OwnedBy(db, i);
    }
  }

  lemma CreatesNowhere(db: DB, req: Request, units: int, id: Id, placement: Id)
    requires !Belongs(db, req)
    ensures Creating(db, req, units, id, placement) == Err(NotFound)
  {}

  /** The repeated command is answered in the read transaction, exactly for the very same request. */
  lemma ReplaysExactly(db: DB, req: Request)
    requires Inv(db) && RequestKey(req.tenant, CreateScope, req.key) in db.requests
    ensures !Belongs(db, req) ==> Replay(db, req) == Err(NotFound)
    ensures Belongs(db, req) && db.envs[req.env].placement.Some? ==>
      && db.envs[req.env].placement.value in db.placements && db.placements[db.envs[req.env].placement.value].cell in db.cells
      && var m := db.requests[RequestKey(req.tenant, CreateScope, req.key)];
         Replay(db, req) ==
         if m.fingerprint == OfCreate(req.application, req.env, req.artifact,
                                      Hosted(db, req, db.placements[db.envs[req.env].placement.value].cell))
         then Ok(Some(m.release)) else Err(Conflict)
  {
    hide Inv;
    if Belongs(db, req) {
      PlacedEnv(db, req.env);
    }
    Remembers(db, RequestKey(req.tenant, CreateScope, req.key));
  }

  // ---------------------------------------------------------------- cells and environments

  /** A cell is registered once, active and empty, with a positive capacity and some isolation; registering it again with the
      same configuration changes nothing. */
  lemma RegistersExactly(db: DB, id: Id, cell: Cell)
    ensures Registering(db, id, cell) ==
      if cell.capacity <= 0 || cell.isolations == {} then Err(InvalidArgument)
      else if id !in db.cells then Ok(db.(cells := db.cells[id := Cell(cell.region, cell.isolations, ActiveCell, cell.capacity, 0, cell.domain)]))
      else if SameCell(db.cells[id], cell) then Ok(db) else Err(Conflict)
  {}

  /** An environment is opened once, without placement and active release, under a name that its application has not used. */
  lemma OpensExactly(db: DB, id: Id, tenant: Id, application: Id, name: string)
    ensures var taken := id in db.envs || exists e | e in db.envs :: db.envs[e].application == application && db.envs[e].name == name;
      Opening(db, id, tenant, application, name) ==
      if taken then Err(Conflict) else Ok(db.(envs := db.envs[id := Environment(tenant, application, name, None, None)]))
  {}

  // ---------------------------------------------------------------- the two state machines

  /** The moves between phases and between release states; everything else conflicts, except to stay. */
  lemma MovesExactly(a: Phase, b: Phase, x: ReleaseState, y: ReleaseState)
    ensures Move(a, b) ==
      if a == b || (a, b) in {(Pending, GitCommitted), (GitCommitted, ArgoSyncing), (ArgoSyncing, RollingOut), (ArgoSyncing, Degraded),
                              (RollingOut, Ready), (RollingOut, Degraded), (Degraded, RollingOut), (Degraded, Ready)}
         || (b == FailedDeployment && a != Ready)
      then Ok(b) else Err(Conflict)
    ensures Turn(x, y) ==
      if x == y || (x, y) in {(Created, Validated), (Validated, CommittedToGitOps), (CommittedToGitOps, Deploying), (Deploying, Active),
                              (Active, Superseded)}
         || (y == FailedRelease && (x == Validated || x == CommittedToGitOps || x == Deploying))
      then Ok(y) else Err(Conflict)
  {}
}
