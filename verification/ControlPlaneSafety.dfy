/** What every reachable state of the control plane satisfies, one predicate per concern. */
module ControlPlaneSafety {
  import opened Int64
  import opened Normalize
  import opened Scheduling
  import opened ControlPlane
  import Sums

  // ---------------------------------------------------------------- capacity

  ghost function UnitsOn(cell: Id): Placement -> int {
    (p: Placement) => if p.cell == cell then p.units else 0
  }

  /** Every cell's allocation is the sum of the placements on it, and fits. */
  ghost predicate Balanced(cells: map<Id, Cell>, placements: map<Id, Placement>) {
    forall c | c in cells :: cells[c].used == Sums.Sum(placements, UnitsOn(c)) && 0 <= cells[c].used <= cells[c].capacity
  }

  /** A placement is live, positive, on a registered cell, and the one its environment names. */
  ghost predicate PinnedRow(cells: map<Id, Cell>, placements: map<Id, Placement>, envs: map<Id, Environment>, p: Id) {
    p in placements ==>
      var q := placements[p];
      q.current && q.units > 0 && q.cell in cells && q.region == cells[q.cell].region && q.env in envs && envs[q.env].placement == Some(p)
  }

  ghost predicate PinnedEnv(placements: map<Id, Placement>, envs: map<Id, Environment>, e: Id) {
    e in envs && envs[e].placement.Some? ==> envs[e].placement.value in placements && placements[envs[e].placement.value].env == e
  }

  ghost predicate Pinned(cells: map<Id, Cell>, placements: map<Id, Placement>, envs: map<Id, Environment>) {
    (forall p :: PinnedRow(cells, placements, envs, p)) && (forall e :: PinnedEnv(placements, envs, e))
  }

  // ---------------------------------------------------------------- releases and deployments

  /** A release belongs to a placed environment of the same tenant and application, is normalised and carries its own
      identity. */
  ghost predicate OwnedRow(envs: map<Id, Environment>, releases: map<Id, Release>, r: Id) {
    r in releases ==>
      var x := releases[r];
      x.env in envs && envs[x.env].tenant == x.tenant && envs[x.env].application == x.application && envs[x.env].placement.Some?
      && Some(x.identity) == ReleaseIdentity(x.env, x.artifact, x.config) && Normal(x.config) == Some(x.config)
  }

  ghost predicate Owned(envs: map<Id, Environment>, releases: map<Id, Release>) {
    forall r :: OwnedRow(envs, releases, r)
  }

  predicate Match(phase: Phase, state: ReleaseState) {
    match phase
    case Pending => state.Validated?
    case GitCommitted => state.CommittedToGitOps?
    case ArgoSyncing => state.CommittedToGitOps?
    case RollingOut => state.Deploying?
    case Degraded => state.Deploying?
    case Ready => state.Active? || state.Superseded?
    case FailedDeployment => false
  }

  ghost predicate InStep(releases: map<Id, Release>, deployments: map<Id, Deployment>, commits: map<Id, GitCommit>, r: Id) {
    && (r in deployments ==> r in releases && Match(deployments[r].phase, releases[r].state))
    && (r in releases && r !in deployments ==> releases[r].state.Validated?)
    && (r in commits <==> r in deployments && !deployments[r].phase.Pending?)
    && (r in deployments ==> deployments[r].sha == if r in commits then commits[r].sha else "")
    && (r in commits ==> commits[r].sha != "")
  }

  /** Release, deployment and commit record move together. */
  ghost predicate Lockstep(releases: map<Id, Release>, deployments: map<Id, Deployment>, commits: map<Id, GitCommit>) {
    forall r :: InStep(releases, deployments, commits, r)
  }

  ghost predicate FiledRow(placements: map<Id, Placement>, envs: map<Id, Environment>, releases: map<Id, Release>,
                           deployments: map<Id, Deployment>, commits: map<Id, GitCommit>, r: Id) {
    r in deployments && r in releases && releases[r].env in envs ==>
      && envs[releases[r].env].placement == Some(deployments[r].placement)
      && (r in commits && deployments[r].placement in placements ==> commits[r].cell == placements[deployments[r].placement].cell)
  }

  /** A deployment runs on its environment's placement, and its commit went to that cell. */
  ghost predicate Filed(placements: map<Id, Placement>, envs: map<Id, Environment>, releases: map<Id, Release>,
                        deployments: map<Id, Deployment>, commits: map<Id, GitCommit>) {
    forall r :: FiledRow(placements, envs, releases, deployments, commits, r)
  }

  ghost predicate NamedRow(envs: map<Id, Environment>, releases: map<Id, Release>, r: Id) {
    r in releases && releases[r].state.Active? && releases[r].env in envs ==> envs[releases[r].env].active == Some(r)
  }

  ghost predicate NamedEnv(envs: map<Id, Environment>, releases: map<Id, Release>, e: Id) {
    e in envs && envs[e].active.Some? ==>
      var r := envs[e].active.value;
      r in releases && releases[r].env == e && (releases[r].state.Active? || releases[r].state.Superseded?)
  }

  /** An active release is the one its environment names, so there is at most one. */
  ghost predicate Named(envs: map<Id, Environment>, releases: map<Id, Release>) {
    (forall r :: NamedRow(envs, releases, r)) && (forall e :: NamedEnv(envs, releases, e))
  }

  // ---------------------------------------------------------------- identities and remembered commands

  ghost predicate SameIdentity(releases: map<Id, Release>, a: Id, b: Id) {
    a in releases && b in releases && releases[a].rollbackOf.None? && Carries(releases[b], releases[a].tenant, releases[a].env, releases[a].identity)
  }

  /** One release per identity, rollbacks aside. */
  ghost predicate OneEach(releases: map<Id, Release>) {
    forall a, b :: SameIdentity(releases, a, b) ==> a == b
  }

  predicate Answers(key: RequestKey, fingerprint: Fingerprint, x: Release) {
    key.tenant == x.tenant && match fingerprint
    case OfCreate(application, env, artifact, config) =>
      key.scope.CreateScope? && x.rollbackOf.None? && x.application == application && x.env == env
    case OfRollback(env, target, critical) =>
      key.scope.RollbackScope? && x.rollbackOf == Some(target) && x.env == env
  }

  ghost predicate Identified(fingerprint: Fingerprint, x: Release) {
    fingerprint.OfCreate? ==> Some(x.identity) == ReleaseIdentity(fingerprint.env, fingerprint.artifact, fingerprint.config)
  }

  ghost predicate KeptRow(releases: map<Id, Release>, requests: map<RequestKey, Remembered>, k: RequestKey) {
    k in requests ==>
      var m := requests[k];
      m.release in releases && Answers(k, m.fingerprint, releases[m.release]) && Identified(m.fingerprint, releases[m.release])
  }

  /** A remembered command points at a release that answers it. */
  ghost predicate Kept(releases: map<Id, Release>, requests: map<RequestKey, Remembered>) {
    forall k :: KeptRow(releases, requests, k)
  }

  ghost predicate Inv(db: DB) {
    && Balanced(db.cells, db.placements)
    && Pinned(db.cells, db.placements, db.envs)
    && Owned(db.envs, db.releases)
    && Lockstep(db.releases, db.deployments, db.commits)
    && Filed(db.placements, db.envs, db.releases, db.deployments, db.commits)
    && Named(db.envs, db.releases)
    && OneEach(db.releases)
    && Kept(db.releases, db.requests)
  }

  /** The current placement is the one the environment names. */
  lemma CurrentIsNamed(cells: map<Id, Cell>, placements: map<Id, Placement>, envs: map<Id, Environment>, e: Id)
    requires Pinned(cells, placements, envs) && e in envs
    ensures Current(placements, e) == envs[e].placement
  {
    var c := Current(placements, e);
    assert PinnedEnv(placements, envs, e);
    if c.Some? {
      assert PinnedRow(cells, placements, envs, c.value);
    }
    assert envs[e].placement.Some? ==> PinnedRow(cells, placements, envs, envs[e].placement.value);
  }

  lemma CurrentIs(db: DB, e: Id)
    requires Inv(db) && e in db.envs
    ensures Current(db.placements, e) == db.envs[e].placement
  {
    CurrentIsNamed(db.cells, db.placements, db.envs, e);
  }

  lemma AtMostOneActive(db: DB, a: Id, b: Id)
    requires Inv(db) && a in db.releases && b in db.releases && db.releases[a].env == db.releases[b].env
    requires db.releases[a].state.Active? && db.releases[b].state.Active?
    ensures a == b
  {
    hide Balanced, Pinned, Lockstep, Filed, OneEach, Kept;
    assert OwnedRow(db.envs, db.releases, a);
    assert NamedRow(db.envs, db.releases, a) && NamedRow(db.envs, db.releases, b);
  }

  // ---------------------------------------------------------------- what never changes again

  predicate SameCell(a: Cell, b: Cell) {
    a.region == b.region && a.isolations == b.isolations && a.capacity == b.capacity && a.domain == b.domain
  }

  predicate SamePlace(a: Placement, b: Placement) {
    a.env == b.env && a.cell == b.cell && a.region == b.region && a.isolation == b.isolation
  }

  predicate SameEnv(a: Environment, b: Environment) {
    a.tenant == b.tenant && a.application == b.application && a.name == b.name && (a.placement.Some? ==> a.placement == b.placement)
  }

  ghost predicate KeepsCells(a: map<Id, Cell>, b: map<Id, Cell>) {
    forall c | c in a :: c in b && SameCell(a[c], b[c])
  }

  ghost predicate KeepsPlacements(a: map<Id, Placement>, b: map<Id, Placement>) {
    forall p | p in a :: p in b && SamePlace(a[p], b[p])
  }

  ghost predicate KeepsEnvs(a: map<Id, Environment>, b: map<Id, Environment>) {
    forall e | e in a :: e in b && SameEnv(a[e], b[e])
  }

  ghost predicate KeepsReleases(a: map<Id, Release>, b: map<Id, Release>) {
    forall r | r in a :: r in b && b[r] == a[r].(state := b[r].state)
  }

  ghost predicate KeepsDeployments(a: map<Id, Deployment>, b: map<Id, Deployment>) {
    forall r | r in a :: r in b && b[r].placement == a[r].placement && b[r].previous == a[r].previous
  }

  ghost predicate KeepsRows<K(!new), V(!new)>(a: map<K, V>, b: map<K, V>) {
    forall k | k in a :: k in b && b[k] == a[k]
  }

  /** The later state keeps every row of the earlier one: identities, pins, placements' cells, commits and answers. */
  ghost predicate Extends(a: DB, b: DB) {
    && a.catalog == b.catalog
    && KeepsCells(a.cells, b.cells)
    && KeepsPlacements(a.placements, b.placements)
    && KeepsEnvs(a.envs, b.envs)
    && KeepsReleases(a.releases, b.releases)
    && KeepsDeployments(a.deployments, b.deployments)
    && KeepsRows(a.commits, b.commits)
    && KeepsRows(a.requests, b.requests)
  }

  lemma ExtendsSelf(a: DB)
    ensures Extends(a, a)
  {}

  lemma ExtendsTransitive(a: DB, b: DB, c: DB)
    requires Extends(a, b) && Extends(b, c)
    ensures Extends(a, c)
  {}

  // ---------------------------------------------------------------- frames: rows that differ only in their mutable part

  ghost predicate SameButState(a: map<Id, Release>, b: map<Id, Release>) {
    a.Keys == b.Keys && forall r | r in a :: b[r] == a[r].(state := b[r].state)
  }

  ghost predicate SameButActive(a: map<Id, Environment>, b: map<Id, Environment>) {
    a.Keys == b.Keys && forall e | e in a :: b[e] == a[e].(active := b[e].active)
  }

  lemma PinnedFrame(cells: map<Id, Cell>, placements: map<Id, Placement>, a: map<Id, Environment>, b: map<Id, Environment>)
    requires Pinned(cells, placements, a) && SameButActive(a, b)
    ensures Pinned(cells, placements, b)
  {
    forall p ensures PinnedRow(cells, placements, b, p) {
      assert PinnedRow(cells, placements, a, p);
    }
    forall e ensures PinnedEnv(placements, b, e) {
      assert PinnedEnv(placements, a, e);
    }
  }

  lemma OwnedFrame(a: map<Id, Environment>, b: map<Id, Environment>, x: map<Id, Release>, y: map<Id, Release>)
    requires Owned(a, x) && SameButActive(a, b) && SameButState(x, y)
    ensures Owned(b, y)
  {
    hide Normal, ReleaseIdentity;
    forall r ensures OwnedRow(b, y, r) {
      assert OwnedRow(a, x, r);
    }
  }

  lemma FiledFrame(placements: map<Id, Placement>, a: map<Id, Environment>, b: map<Id, Environment>, x: map<Id, Release>, y: map<Id, Release>,
                   deployments: map<Id, Deployment>, commits: map<Id, GitCommit>)
    requires Filed(placements, a, x, deployments, commits) && SameButActive(a, b) && SameButState(x, y)
    ensures Filed(placements, b, y, deployments, commits)
  {
    forall r ensures FiledRow(placements, b, y, deployments, commits, r) {
      assert FiledRow(placements, a, x, deployments, commits, r);
    }
  }

  lemma OneEachFrame(x: map<Id, Release>, y: map<Id, Release>)
    requires OneEach(x) && SameButState(x, y)
    ensures OneEach(y)
  {
    forall a, b | SameIdentity(y, a, b) ensures a == b {
      assert SameIdentity(x, a, b);
    }
  }

  lemma KeptFrame(x: map<Id, Release>, y: map<Id, Release>, requests: map<RequestKey, Remembered>)
    requires Kept(x, requests) && SameButState(x, y)
    ensures Kept(y, requests)
  {
    forall k ensures KeptRow(y, requests, k) {
      assert KeptRow(x, requests, k);
    }
  }

  /** All that a change of release states and of environments' active releases leaves to show. */
  lemma StatesFrame(db: DB, envs: map<Id, Environment>, releases: map<Id, Release>)
    requires Inv(db) && SameButActive(db.envs, envs) && SameButState(db.releases, releases)
    ensures Pinned(db.cells, db.placements, envs) && Owned(envs, releases)
    ensures Filed(db.placements, envs, releases, db.deployments, db.commits)
    ensures OneEach(releases) && Kept(releases, db.requests)
    ensures KeepsEnvs(db.envs, envs) && KeepsReleases(db.releases, releases)
  {
    PinnedFrame(db.cells, db.placements, db.envs, envs);
    OwnedFrame(db.envs, envs, db.releases, releases);
    FiledFrame(db.placements, db.envs, envs, db.releases, releases, db.deployments, db.commits);
    OneEachFrame(db.releases, releases);
    KeptFrame(db.releases, releases, db.requests);
    hide Inv, Owned, Filed, OneEach, Kept, Pinned;
  }

  // ---------------------------------------------------------------- resizing and placing

  lemma ResizeBalances(db: DB, id: Id, units: int)
    requires Balanced(db.cells, db.placements) && id in db.placements && Resize(db, id, units).Ok?
    ensures Balanced(Resize(db, id, units).value.cells, Resize(db, id, units).value.placements)
  {
    var s := Resize(db, id, units).value;
    if s != db {
      var p := db.placements[id];
      forall c | c in s.cells ensures s.cells[c].used == Sums.Sum(s.placements, UnitsOn(c)) {
        Sums.Update(db.placements, id, p.(units := units), UnitsOn(c));
      }
    }
  }

  /** A resized placement keeps its place, a resized cell its configuration. */
  lemma ResizeFrame(db: DB, id: Id, units: int)
    requires id in db.placements && Resize(db, id, units).Ok?
    ensures KeepsCells(db.cells, Resize(db, id, units).value.cells) && KeepsPlacements(db.placements, Resize(db, id, units).value.placements)
    ensures var s := Resize(db, id, units).value;
            s == db.(cells := s.cells, placements := s.placements) && s.cells.Keys == db.cells.Keys
            && s.placements == db.placements[id := db.placements[id].(units := units)]
  {
    ExtendsSelf(db);
    var p := db.placements[id];
    if p.units != units {
      assert SamePlace(p, p.(units := units));
    }
  }

  lemma ResizePins(db: DB, id: Id, units: int)
    requires Pinned(db.cells, db.placements, db.envs) && id in db.placements && Resize(db, id, units).Ok?
    requires Filed(db.placements, db.envs, db.releases, db.deployments, db.commits)
    ensures var s := Resize(db, id, units).value;
            Pinned(s.cells, s.placements, s.envs) && Filed(s.placements, s.envs, s.releases, s.deployments, s.commits)
  {
    var s := Resize(db, id, units).value;
    ResizeFrame(db, id, units);
    assert PinnedRow(db.cells, db.placements, db.envs, id);
    forall p ensures PinnedRow(s.cells, s.placements, s.envs, p) {
      assert PinnedRow(db.cells, db.placements, db.envs, p);
    }
    forall e ensures PinnedEnv(s.placements, s.envs, e) {
      assert PinnedEnv(db.placements, db.envs, e);
    }
    forall r ensures FiledRow(s.placements, s.envs, s.releases, s.deployments, s.commits, r) {
      assert FiledRow(db.placements, db.envs, db.releases, db.deployments, db.commits, r);
    }
  }

  lemma ResizeKeeps(db: DB, id: Id, units: int)
    requires Inv(db) && id in db.placements && Resize(db, id, units).Ok?
    ensures var s := Resize(db, id, units).value;
            Inv(s) && Extends(db, s) && s.placements[id].units == units && s == db.(cells := s.cells, placements := s.placements)
  {
    hide Balanced, Pinned, Owned, Lockstep, Filed, Named, OneEach, Kept;
    hide KeepsCells, KeepsPlacements, KeepsEnvs, KeepsReleases, KeepsDeployments, KeepsRows;
    ExtendsSelf(db);
    ResizeBalances(db, id, units);
    ResizePins(db, id, units);
    ResizeFrame(db, id, units);
    hide Resize;
  }

  /** Giving capacity back cannot fail. */
  lemma ShrinkSucceeds(db: DB, id: Id, units: int)
    requires Inv(db) && id in db.placements && 0 < units <= db.placements[id].units
    ensures Resize(db, id, units).Ok?
  {
    hide Owned, Lockstep, Filed, Named, OneEach, Kept;
    assert forall p :: PinnedRow(db.cells, db.placements, db.envs, p);
    assert PinnedRow(db.cells, db.placements, db.envs, id);
    var p := db.placements[id];
    PositiveSum(db, p.cell, id);
  }

  lemma PositiveSum(db: DB, cell: Id, id: Id)
    requires Balanced(db.cells, db.placements) && cell in db.cells && id in db.placements && db.placements[id].cell == cell
    requires forall p :: PinnedRow(db.cells, db.placements, db.envs, p)
    ensures db.placements[id].units <= db.cells[cell].used
  {
    var f := UnitsOn(cell);
    forall p | p in db.placements ensures f(db.placements[p]) >= 0 {
      assert PinnedRow(db.cells, db.placements, db.envs, p);
    }
    Sums.AtMost(db.placements, id, f);
  }

  lemma PlaceBalances(db: DB, id: Id, env: Id, cell: Id, isolation: Isolation, units: int)
    requires Balanced(db.cells, db.placements) && env in db.envs && cell in db.cells
    requires Place(db, id, env, cell, isolation, units).Ok?
    ensures var s := Place(db, id, env, cell, isolation, units).value; Balanced(s.cells, s.placements)
  {
    var s := Place(db, id, env, cell, isolation, units).value;
    forall c | c in s.cells ensures s.cells[c].used == Sums.Sum(s.placements, UnitsOn(c)) {
      Sums.Update(db.placements, id, s.placements[id], UnitsOn(c));
    }
  }

  lemma PlaceFrame(db: DB, id: Id, env: Id, cell: Id, isolation: Isolation, units: int)
    requires env in db.envs && cell in db.cells && db.envs[env].placement.None? && Place(db, id, env, cell, isolation, units).Ok?
    ensures var s := Place(db, id, env, cell, isolation, units).value;
            KeepsCells(db.cells, s.cells) && KeepsPlacements(db.placements, s.placements) && KeepsEnvs(db.envs, s.envs)
            && s == db.(cells := s.cells, placements := s.placements, envs := s.envs) && id !in db.placements
            && s.placements == db.placements[id := s.placements[id]] && s.envs == db.envs[env := db.envs[env].(placement := Some(id))]
            && s.cells.Keys == db.cells.Keys
            && s.placements[id] == Placement(env, cell, db.cells[cell].region, isolation, true, units) && units > 0
  {}

  lemma PlacePins(db: DB, s: DB, id: Id, env: Id)
    requires Pinned(db.cells, db.placements, db.envs) && env in db.envs && db.envs[env].placement.None? && id !in db.placements
    requires KeepsCells(db.cells, s.cells) && id in s.placements && s.placements[id].current && s.placements[id].units > 0
    requires s.placements[id].env == env && s.placements[id].cell in s.cells && s.placements[id].region == s.cells[s.placements[id].cell].region
    requires s.placements == db.placements[id := s.placements[id]] && s.envs == db.envs[env := db.envs[env].(placement := Some(id))]
    ensures Pinned(s.cells, s.placements, s.envs)
  {
    forall p ensures PinnedRow(s.cells, s.placements, s.envs, p) {
      assert PinnedRow(db.cells, db.placements, db.envs, p);
    }
    forall e ensures PinnedEnv(s.placements, s.envs, e) {
      assert PinnedEnv(db.placements, db.envs, e);
    }
  }

  /** An environment without a placement has no releases, so pinning it disturbs none. */
  lemma PlaceOwns(db: DB, s: DB, id: Id, env: Id)
    requires Owned(db.envs, db.releases) && Named(db.envs, db.releases) && env in db.envs && db.envs[env].placement.None? && id !in db.placements
    requires s == db.(cells := s.cells, placements := s.placements, envs := s.envs) && id in s.placements
    requires s.placements == db.placements[id := s.placements[id]] && s.envs == db.envs[env := db.envs[env].(placement := Some(id))]
    ensures Owned(s.envs, s.releases) && Named(s.envs, s.releases)
  {
    hide Normal, ReleaseIdentity;
    forall r ensures OwnedRow(s.envs, s.releases, r) && NamedRow(s.envs, s.releases, r) {
      assert OwnedRow(db.envs, db.releases, r) && NamedRow(db.envs, db.releases, r);
    }
    forall e ensures NamedEnv(s.envs, s.releases, e) {
      assert NamedEnv(db.envs, db.releases, e);
    }
  }

  lemma PlaceFiles(db: DB, s: DB, id: Id, env: Id)
    requires Owned(db.envs, db.releases) && env in db.envs && db.envs[env].placement.None? && id !in db.placements
    requires Filed(db.placements, db.envs, db.releases, db.deployments, db.commits) && Pinned(db.cells, db.placements, db.envs)
    requires s == db.(cells := s.cells, placements := s.placements, envs := s.envs) && id in s.placements
    requires s.placements == db.placements[id := s.placements[id]] && s.envs == db.envs[env := db.envs[env].(placement := Some(id))]
    ensures Filed(s.placements, s.envs, s.releases, s.deployments, s.commits)
  {
    hide Normal, ReleaseIdentity;
    forall r ensures FiledRow(s.placements, s.envs, s.releases, s.deployments, s.commits, r) {
      assert FiledRow(db.placements, db.envs, db.releases, db.deployments, db.commits, r);
      assert OwnedRow(db.envs, db.releases, r);
      if r in db.releases {
        assert PinnedEnv(db.placements, db.envs, db.releases[r].env);
      }
    }
  }

  lemma PlaceKeeps(db: DB, id: Id, env: Id, cell: Id, isolation: Isolation, units: int)
    requires Inv(db) && env in db.envs && cell in db.cells && db.envs[env].placement.None?
    requires Place(db, id, env, cell, isolation, units).Ok?
    ensures var s := Place(db, id, env, cell, isolation, units).value;
            Inv(s) && Extends(db, s) && s.envs[env].placement == Some(id) && s == db.(cells := s.cells, placements := s.placements, envs := s.envs)
            && s.envs == db.envs[env := db.envs[env].(placement := Some(id))]
  {
    hide Balanced, Pinned, Owned, Lockstep, Filed, Named, OneEach, Kept;
    hide KeepsPlacements, KeepsEnvs, KeepsReleases, KeepsDeployments, KeepsRows;
    var s := Place(db, id, env, cell, isolation, units).value;
    ExtendsSelf(db);
    PlaceBalances(db, id, env, cell, isolation, units);
    PlaceFrame(db, id, env, cell, isolation, units);
    hide Place;
    PlacePins(db, s, id, env);
    PlaceOwns(db, s, id, env);
    PlaceFiles(db, s, id, env);
  }

  // ---------------------------------------------------------------- releases

  lemma NewReleaseIdentified(tenant: Id, application: Id, env: Id, artifact: string, config: Config, rollbackOf: Option<Id>)
    requires NewRelease(tenant, application, env, artifact, config, rollbackOf).Some?
    ensures var x := NewRelease(tenant, application, env, artifact, config, rollbackOf).value;
            && Some(x.identity) == ReleaseIdentity(env, artifact, config) && Some(x.identity) == ReleaseIdentity(x.env, x.artifact, x.config)
            && x.tenant == tenant && x.application == application && x.env == env && x.artifact == artifact
            && x.rollbackOf == rollbackOf && x.state == Validated && Normal(config) == Some(x.config) && Normal(x.config) == Some(x.config)
  {
    LookupIsStored(env, artifact, config);
    NormalIdempotent(config);
  }

  /** The row is consistent with its environment and with the command that asked for it. */
  ghost predicate Fits(envs: map<Id, Environment>, releases: map<Id, Release>, x: Release, key: RequestKey, fingerprint: Fingerprint) {
    && x.env in envs && envs[x.env].tenant == x.tenant && envs[x.env].application == x.application && envs[x.env].placement.Some?
    && Some(x.identity) == ReleaseIdentity(x.env, x.artifact, x.config) && Normal(x.config) == Some(x.config) && x.state == Validated
    && Answers(key, fingerprint, x) && Identified(fingerprint, x)
    && (x.rollbackOf.None? ==> FindByIdentity(releases, x.tenant, x.env, x.identity).None?)
  }

  lemma InsertUnique(releases: map<Id, Release>, id: Id, x: Release)
    requires OneEach(releases) && id !in releases
    requires x.rollbackOf.None? ==> FindByIdentity(releases, x.tenant, x.env, x.identity).None?
    ensures OneEach(releases[id := x])
  {
    var after := releases[id := x];
    assert x.rollbackOf.None? ==> forall i | i in releases :: !Carries(releases[i], x.tenant, x.env, x.identity);
    forall a, b | SameIdentity(after, a, b) ensures a == b {
      if a != id && b != id {
        assert SameIdentity(releases, a, b);
      }
    }
  }

  lemma InsertSteps(envs: map<Id, Environment>, releases: map<Id, Release>, deployments: map<Id, Deployment>, commits: map<Id, GitCommit>, id: Id, x: Release)
    requires Lockstep(releases, deployments, commits) && Named(envs, releases) && id !in releases && x.state == Validated
    ensures Lockstep(releases[id := x], deployments, commits) && Named(envs, releases[id := x]) && id !in deployments
  {
    var after := releases[id := x];
    assert InStep(releases, deployments, commits, id);
    forall r ensures InStep(after, deployments, commits, r) && NamedRow(envs, after, r) {
      assert InStep(releases, deployments, commits, r) && NamedRow(envs, releases, r);
    }
    forall e ensures NamedEnv(envs, after, e) {
      assert NamedEnv(envs, releases, e);
    }
  }

  lemma InsertFiles(db: DB, id: Id, x: Release)
    requires Owned(db.envs, db.releases) && Filed(db.placements, db.envs, db.releases, db.deployments, db.commits)
    requires id !in db.releases && id !in db.deployments && OwnedRow(db.envs, map[id := x], id)
    ensures Owned(db.envs, db.releases[id := x]) && Filed(db.placements, db.envs, db.releases[id := x], db.deployments, db.commits)
  {
    hide Normal, ReleaseIdentity;
    var after := db.releases[id := x];
    forall r ensures OwnedRow(db.envs, after, r) && FiledRow(db.placements, db.envs, after, db.deployments, db.commits, r) {
      assert OwnedRow(db.envs, db.releases, r) && FiledRow(db.placements, db.envs, db.releases, db.deployments, db.commits, r);
      assert OwnedRow(db.envs, map[id := x], id);
    }
  }

  lemma InsertRemembers(releases: map<Id, Release>, requests: map<RequestKey, Remembered>, id: Id, x: Release, key: RequestKey, fingerprint: Fingerprint)
    requires Kept(releases, requests) && id !in releases && key !in requests && Answers(key, fingerprint, x) && Identified(fingerprint, x)
    ensures Kept(releases[id := x], requests[key := Remembered(fingerprint, id)])
    ensures KeepsReleases(releases, releases[id := x]) && KeepsRows(requests, requests[key := Remembered(fingerprint, id)])
  {
    hide Normal, ReleaseIdentity;
    var after, answered := releases[id := x], requests[key := Remembered(fingerprint, id)];
    forall k ensures KeptRow(after, answered, k) {
      assert KeptRow(releases, requests, k);
    }
  }

  lemma InsertKeeps(db: DB, id: Id, x: Release, key: RequestKey, fingerprint: Fingerprint)
    requires Inv(db) && Insert(db, id, x, key, fingerprint).Ok? && key !in db.requests && Fits(db.envs, db.releases, x, key, fingerprint)
    ensures var s := Insert(db, id, x, key, fingerprint).value; Inv(s.db) && Extends(db, s.db) && s.release == id && id in s.db.releases
  {
    hide Balanced, Pinned, Owned, Lockstep, Filed, Named, OneEach, Kept;
    hide KeepsCells, KeepsPlacements, KeepsEnvs, KeepsReleases, KeepsDeployments, KeepsRows;
    ExtendsSelf(db);
    InsertUnique(db.releases, id, x);
    InsertSteps(db.envs, db.releases, db.deployments, db.commits, id, x);
    InsertFiles(db, id, x);
    InsertRemembers(db.releases, db.requests, id, x, key, fingerprint);
  }

  lemma RememberKeeps(db: DB, key: RequestKey, fingerprint: Fingerprint, r: Id)
    requires Inv(db) && key !in db.requests && r in db.releases
    requires Answers(key, fingerprint, db.releases[r]) && Identified(fingerprint, db.releases[r])
    ensures var s := db.(requests := db.requests[key := Remembered(fingerprint, r)]); Inv(s) && Extends(db, s)
  {
    hide Balanced, Pinned, Owned, Lockstep, Filed, Named, OneEach;
    hide KeepsCells, KeepsPlacements, KeepsEnvs, KeepsReleases, KeepsDeployments;
    ExtendsSelf(db);
    var answered := db.requests[key := Remembered(fingerprint, r)];
    forall k ensures KeptRow(db.releases, answered, k) {
      assert KeptRow(db.releases, db.requests, k);
    }
  }

  /** Both ways of making room: the current placement is resized, or a first one is made. */
  ghost function Room(db: DB, req: Request, units: int, placement: Id, spot: Spot): Result<DB>
    requires req.env in db.envs && spot.cell in db.cells && (spot.current.Some? ==> spot.current.value in db.placements)
  {
    if spot.current.Some? then Resize(db, spot.current.value, units)
    else Place(db, placement, req.env, spot.cell, req.config.isolation, units)
  }

  lemma RoomKeeps(db: DB, req: Request, units: int, placement: Id, spot: Spot)
    requires Inv(db) && req.env in db.envs && spot.cell in db.cells && spot.current == db.envs[req.env].placement
    requires spot.current.Some? ==> spot.current.value in db.placements
    requires Room(db, req, units, placement, spot).Ok?
    ensures var s := Room(db, req, units, placement, spot).value;
            Inv(s) && Extends(db, s) && s.releases == db.releases && s.requests == db.requests && req.env in s.envs
            && s.envs[req.env].placement.Some? && s.envs[req.env].tenant == db.envs[req.env].tenant
            && s.envs[req.env].application == db.envs[req.env].application
  {
    hide Inv, Extends;
    if spot.current.Some? {
      ResizeKeeps(db, spot.current.value, units);
    } else {
      PlaceKeeps(db, placement, req.env, spot.cell, req.config.isolation, units);
    }
  }

  lemma FreshKeeps(db: DB, req: Request, units: int, id: Id, placement: Id, spot: Spot, config: Config)
    requires Inv(db) && req.env in db.envs && db.envs[req.env].tenant == req.tenant && db.envs[req.env].application == req.application
    requires spot.cell in db.cells && spot.current == db.envs[req.env].placement && (spot.current.Some? ==> spot.current.value in db.placements)
    requires RequestKey(req.tenant, CreateScope, req.key) !in db.requests
    requires Fresh(db, req, units, id, placement, spot, config).Ok?
    ensures var s := Fresh(db, req, units, id, placement, spot, config).value; Inv(s.db) && Extends(db, s.db) && s.release in s.db.releases
  {
    hide Balanced, Pinned, Lockstep, Filed, Named, OneEach, Kept, Extends;
    hide Normal, NewReleaseIdentity, ReleaseIdentity, NewRelease, Resize, Place;
    var key := RequestKey(req.tenant, CreateScope, req.key);
    var fingerprint := OfCreate(req.application, req.env, req.artifact, config);
    var identity := ReleaseIdentity(req.env, req.artifact, config).value;
    var existing := FindByIdentity(db.releases, req.tenant, req.env, identity);
    if existing.Some? {
      assert OwnedRow(db.envs, db.releases, existing.value);
      hide Inv;
      RememberKeeps(db, key, fingerprint, existing.value);
    } else {
      hide Inv;
      var s := Room(db, req, units, placement, spot).value;
      RoomKeeps(db, req, units, placement, spot);
      NewReleaseIdentified(req.tenant, req.application, req.env, req.artifact, config, None);
      var x := NewRelease(req.tenant, req.application, req.env, req.artifact, config, None).value;
      InsertKeeps(s, id, x, key, fingerprint);
      ExtendsTransitive(db, s, Insert(s, id, x, key, fingerprint).value.db);
    }
  }

  lemma RecallKeeps(db: DB, key: RequestKey, fingerprint: Fingerprint, placed: bool)
    requires Inv(db) && key in db.requests && Recall(db, key, fingerprint, placed).Ok?
    ensures var s := Recall(db, key, fingerprint, placed).value; Inv(s.db) && Extends(db, s.db) && s.release in s.db.releases
  {
    hide Inv, Extends;
    ExtendsSelf(db);
  }

  lemma CreateKeeps(db: DB, req: Request, units: int, id: Id, placement: Id)
    requires Inv(db) && Creating(db, req, units, id, placement).Ok?
    ensures var s := Creating(db, req, units, id, placement).value; Inv(s.db) && Extends(db, s.db) && s.release in s.db.releases
  {
    hide Inv, Extends, Fresh, Recall;
    CurrentIs(db, req.env);
    var spot := Locate(db, req.env, req.config, units).value;
    var config := Effective(db, req, spot.cell);
    var key := RequestKey(req.tenant, CreateScope, req.key);
    if key in db.requests {
      RecallKeeps(db, key, OfCreate(req.application, req.env, req.artifact, config), spot.current.Some?);
    } else {
      FreshKeeps(db, req, units, id, placement, spot, config);
    }
  }

  /** A new row goes in after the placement was resized for it. */
  lemma ResizeThenInsert(db: DB, p: Id, units: int, id: Id, x: Release, key: RequestKey, fingerprint: Fingerprint)
    requires Inv(db) && p in db.placements && Resize(db, p, units).Ok?
    requires Insert(Resize(db, p, units).value, id, x, key, fingerprint).Ok? && key !in db.requests && Fits(db.envs, db.releases, x, key, fingerprint)
    ensures var s := Insert(Resize(db, p, units).value, id, x, key, fingerprint).value; Inv(s.db) && Extends(db, s.db) && s.release in s.db.releases
  {
    hide Inv, Extends, Resize, Fits, Insert;
    var s := Resize(db, p, units).value;
    ResizeKeeps(db, p, units);
    InsertKeeps(s, id, x, key, fingerprint);
    ExtendsTransitive(db, s, Insert(s, id, x, key, fingerprint).value.db);
  }

  lemma RollbackKeeps(db: DB, plan: Plan, id: Id)
    requires Inv(db) && plan.env in db.envs && plan.target in db.releases && RollingBack(db, plan, id).Ok?
    ensures var s := RollingBack(db, plan, id).value; Inv(s.db) && Extends(db, s.db) && s.release in s.db.releases
  {
    hide Inv, Extends, Recall, Normal, NewReleaseIdentity, ReleaseIdentity, NewRelease, Resize, Insert;
    CurrentIs(db, plan.env);
    var e := db.envs[plan.env];
    var key := RequestKey(e.tenant, RollbackScope, plan.key);
    var fingerprint := OfRollback(plan.env, plan.target, plan.critical);
    if key in db.requests {
      RecallKeeps(db, key, fingerprint, Current(db.placements, plan.env).Some?);
    } else {
      NewReleaseIdentified(e.tenant, e.application, plan.env, db.releases[plan.target].artifact, plan.config, Some(plan.target));
      var x := NewRelease(e.tenant, e.application, plan.env, db.releases[plan.target].artifact, plan.config, Some(plan.target)).value;
      ResizeThenInsert(db, plan.placement, plan.units, id, x, key, fingerprint);
    }
  }

  // ---------------------------------------------------------------- deployment

  lemma PrepareSteps(db: DB, r: Id, d: Deployment)
    requires Lockstep(db.releases, db.deployments, db.commits) && Filed(db.placements, db.envs, db.releases, db.deployments, db.commits)
    requires r in db.releases && r !in db.deployments && db.releases[r].env in db.envs
    requires db.envs[db.releases[r].env].placement == Some(d.placement) && d.phase.Pending? && d.sha == ""
    ensures Lockstep(db.releases, db.deployments[r := d], db.commits)
    ensures Filed(db.placements, db.envs, db.releases, db.deployments[r := d], db.commits)
    ensures KeepsDeployments(db.deployments, db.deployments[r := d])
  {
    var filed := db.deployments[r := d];
    forall i ensures InStep(db.releases, filed, db.commits, i) {
      assert InStep(db.releases, db.deployments, db.commits, i);
    }
    forall i ensures FiledRow(db.placements, db.envs, db.releases, filed, db.commits, i) {
      assert InStep(db.releases, db.deployments, db.commits, i);
      assert FiledRow(db.placements, db.envs, db.releases, db.deployments, db.commits, i);
    }
  }

  lemma PrepareKeeps(db: DB, r: Id)
    requires Inv(db) && r in db.releases && Preparing(db, r).Ok?
    ensures Inv(Preparing(db, r).value.0) && Extends(db, Preparing(db, r).value.0) && r in Preparing(db, r).value.0.deployments
    ensures var (s, m) := Preparing(db, r).value;
            m.Some? <==> s.deployments[r].phase.Pending?
    ensures var (s, m) := Preparing(db, r).value;
            m.Some? ==> m.value.release == r && s.deployments[r].placement in s.placements && m.value.cell == s.placements[s.deployments[r].placement].cell
  {
    var env := db.releases[r].env;
    CurrentIsNamed(db.cells, db.placements, db.envs, env);
    assert FiledRow(db.placements, db.envs, db.releases, db.deployments, db.commits, r);
    hide Balanced, Pinned, Owned, Lockstep, Filed, Named, OneEach, Kept;
    hide KeepsCells, KeepsPlacements, KeepsEnvs, KeepsReleases, KeepsDeployments, KeepsRows;
    ExtendsSelf(db);
    if r !in db.deployments {
      PrepareSteps(db, r, Deployment(Current(db.placements, env).value, db.envs[env].active, Pending, ""));
    }
  }

  /** One release, its deployment and its commit record move together from one matching pair of states to another. */
  lemma AdvanceSteps(releases: map<Id, Release>, deployments: map<Id, Deployment>, commits: map<Id, GitCommit>,
                     r: Id, x: Release, d: Deployment, after: map<Id, GitCommit>)
    requires Lockstep(releases, deployments, commits)
    requires Match(d.phase, x.state) && (r in after <==> !d.phase.Pending?) && d.sha == (if r in after then after[r].sha else "")
    requires (r in after ==> after[r].sha != "") && (after == commits || (r in after && after == commits[r := after[r]]))
    ensures Lockstep(releases[r := x], deployments[r := d], after)
  {
    var turned, moved := releases[r := x], deployments[r := d];
    forall i ensures InStep(turned, moved, after, i) {
      assert InStep(releases, deployments, commits, i);
    }
  }

  lemma AdvanceNames(envs: map<Id, Environment>, releases: map<Id, Release>, r: Id, state: ReleaseState)
    requires Named(envs, releases) && r in releases
    requires state == releases[r].state || !(releases[r].state.Active? || releases[r].state.Superseded? || state.Active? || state.Superseded?)
    ensures Named(envs, releases[r := releases[r].(state := state)])
  {
    var after := releases[r := releases[r].(state := state)];
    forall i ensures NamedRow(envs, after, i) {
      assert NamedRow(envs, releases, i);
    }
    forall e ensures NamedEnv(envs, after, e) {
      assert NamedEnv(envs, releases, e);
    }
  }

  lemma DeploymentFiles(db: DB, releases: map<Id, Release>, r: Id, d: Deployment, after: map<Id, GitCommit>)
    requires Filed(db.placements, db.envs, releases, db.deployments, db.commits) && r in db.deployments && d.placement == db.deployments[r].placement
    requires after == db.commits || (r in after && after == db.commits[r := after[r]] && d.placement in db.placements && after[r].cell == db.placements[d.placement].cell)
    ensures Filed(db.placements, db.envs, releases, db.deployments[r := d], after)
  {
    var moved := db.deployments[r := d];
    forall i ensures FiledRow(db.placements, db.envs, releases, moved, after, i) {
      assert FiledRow(db.placements, db.envs, releases, db.deployments, db.commits, i);
    }
  }

  lemma RecordKeeps(db: DB, r: Id, c: GitCommit)
    requires Inv(db) && Recording(db, r, c).Ok?
    ensures Inv(Recording(db, r, c).value) && Extends(db, Recording(db, r, c).value)
    ensures var s := Recording(db, r, c).value; r in s.commits && s.commits[r].sha == c.sha && s.commits[r].manifest == c.manifest
  {
    hide Balanced, Pinned, Owned, Filed, Named, OneEach, Kept;
    hide KeepsCells, KeepsPlacements, KeepsEnvs, KeepsReleases;
    ExtendsSelf(db);
    if r !in db.commits {
      var s := Recording(db, r, c).value;
      assert InStep(db.releases, db.deployments, db.commits, r);
      AdvanceSteps(db.releases, db.deployments, db.commits, r, s.releases[r], s.deployments[r], s.commits);
      AdvanceNames(db.envs, db.releases, r, s.releases[r].state);
      StatesFrame(db, db.envs, s.releases);
      DeploymentFiles(db, s.releases, r, s.deployments[r], s.commits);
    }
  }

  // ---------------------------------------------------------------- observations

  lemma AdvanceKeeps(db: DB, r: Id, phase: Phase, state: ReleaseState)
    requires Inv(db) && r in db.deployments && r in db.releases && Match(phase, state) && (db.deployments[r].phase.Pending? <==> phase.Pending?)
    requires state == db.releases[r].state
      || !(db.releases[r].state.Active? || db.releases[r].state.Superseded? || state.Active? || state.Superseded?)
    ensures Inv(Advanced(db, r, phase, state)) && Extends(db, Advanced(db, r, phase, state))
  {
    hide Balanced, Pinned, Owned, Filed, Named, OneEach, Kept;
    var s := Advanced(db, r, phase, state);
    ExtendsSelf(db);
    assert InStep(db.releases, db.deployments, db.commits, r);
    AdvanceSteps(db.releases, db.deployments, db.commits, r, s.releases[r], s.deployments[r], db.commits);
    AdvanceNames(db.envs, db.releases, r, state);
    StatesFrame(db, db.envs, s.releases);
    DeploymentFiles(db, s.releases, r, s.deployments[r], db.commits);
    hide KeepsCells, KeepsPlacements, KeepsEnvs, KeepsReleases, KeepsRows;
  }

  lemma SyncKeeps(db: DB, r: Id)
    requires Inv(db) && Syncing(db, r).Ok?
    ensures Inv(Syncing(db, r).value) && Extends(db, Syncing(db, r).value)
  {
    assert InStep(db.releases, db.deployments, db.commits, r);
    ExtendsSelf(db);
    if db.deployments[r].phase.GitCommitted? {
      AdvanceKeeps(db, r, ArgoSyncing, db.releases[r].state);
      assert Syncing(db, r).value == Advanced(db, r, ArgoSyncing, db.releases[r].state);
    }
    hide Inv, Extends;
  }

  lemma RollKeeps(db: DB, r: Id)
    requires Inv(db) && Rolling(db, r).Ok?
    ensures Inv(Rolling(db, r).value) && Extends(db, Rolling(db, r).value)
  {
    var s := Rolling(db, r).value;
    assert InStep(db.releases, db.deployments, db.commits, r);
    AdvanceKeeps(db, r, s.deployments[r].phase, s.releases[r].state);
    hide Inv, Extends;
    assert s == Advanced(db, r, s.deployments[r].phase, s.releases[r].state);
  }

  lemma SupersedeSteps(releases: map<Id, Release>, env: Id, r: Id, deployments: map<Id, Deployment>, commits: map<Id, GitCommit>)
    requires Lockstep(releases, deployments, commits)
    ensures Lockstep(Superseding(releases, env, r), deployments, commits)
  {
    forall i ensures InStep(Superseding(releases, env, r), deployments, commits, i) {
      assert InStep(releases, deployments, commits, i);
    }
  }

  lemma ReadyNames(envs: map<Id, Environment>, releases: map<Id, Release>, env: Id, r: Id, x: Release)
    requires Named(envs, releases) && r in releases && releases[r].env == env && env in envs && x.env == env && (x.state.Active? || x.state.Superseded?)
    ensures Named(envs[env := envs[env].(active := Some(r))], Superseding(releases, env, r)[r := x])
  {
    var e', s := envs[env := envs[env].(active := Some(r))], Superseding(releases, env, r)[r := x];
    forall i ensures NamedRow(e', s, i) {
      assert NamedRow(envs, releases, i);
    }
    forall e ensures NamedEnv(e', s, e) {
      assert NamedEnv(envs, releases, e);
    }
  }

  lemma ReadySteps(db: DB, r: Id, report: Report)
    requires Inv(db) && report.ReportReady? && Observing(db, r, report).Ok?
    ensures var s := Observing(db, r, report).value;
            Lockstep(s.releases, s.deployments, s.commits) && Named(s.envs, s.releases)
            && SameButState(db.releases, s.releases) && SameButActive(db.envs, s.envs)
  {
    var s := Observing(db, r, report).value;
    var env := db.releases[r].env;
    var mid := Superseding(db.releases, env, r);
    assert InStep(db.releases, db.deployments, db.commits, r);
    SupersedeSteps(db.releases, env, r, db.deployments, db.commits);
    AdvanceSteps(mid, db.deployments, db.commits, r, s.releases[r], s.deployments[r], db.commits);
    ReadyNames(db.envs, db.releases, env, r, s.releases[r]);
    hide Balanced, Pinned, Owned, Lockstep, Filed, Named, OneEach, Kept;
  }

  lemma ReadyShape(db: DB, r: Id, report: Report)
    requires report.ReportReady? && Observing(db, r, report).Ok?
    ensures var s := Observing(db, r, report).value;
            && r in db.deployments && s == db.(deployments := s.deployments, releases := s.releases, envs := s.envs)
            && s.deployments == db.deployments[r := db.deployments[r].(phase := Ready)]
  {
    hide Superseding;
  }

  lemma ReadyKeeps(db: DB, r: Id, report: Report)
    requires Inv(db) && report.ReportReady? && Observing(db, r, report).Ok?
    ensures Inv(Observing(db, r, report).value) && Extends(db, Observing(db, r, report).value)
  {
    hide Balanced, Pinned, Owned, Lockstep, Filed, Named, OneEach, Kept, SameButState, SameButActive;
    hide KeepsCells, KeepsPlacements, KeepsEnvs, KeepsReleases, KeepsRows, Observing;
    var s := Observing(db, r, report).value;
    ExtendsSelf(db);
    ReadyShape(db, r, report);
    ReadySteps(db, r, report);
    StatesFrame(db, s.envs, s.releases);
    DeploymentFiles(db.(envs := s.envs), s.releases, r, s.deployments[r], db.commits);
  }

  lemma ObserveKeeps(db: DB, r: Id, report: Report)
    requires Inv(db) && Observing(db, r, report).Ok?
    ensures Inv(Observing(db, r, report).value) && Extends(db, Observing(db, r, report).value)
  {
    if report.ReportReady? {
      ReadyKeeps(db, r, report);
    } else {
      var s := Observing(db, r, report).value;
      assert InStep(db.releases, db.deployments, db.commits, r);
      AdvanceKeeps(db, r, s.deployments[r].phase, s.releases[r].state);
      hide Inv, Extends;
      assert s == Advanced(db, r, s.deployments[r].phase, s.releases[r].state);
    }
  }

  // ---------------------------------------------------------------- cells and environments

  lemma {:induction false} NothingOn(placements: map<Id, Placement>, cell: Id)
    requires forall p | p in placements :: placements[p].cell != cell
    ensures Sums.Sum(placements, UnitsOn(cell)) == 0
    decreases |placements|
  {
    if placements != map[] {
      var p :| p in placements;
      Sums.Remove(placements, p, UnitsOn(cell));
      NothingOn(placements - {p}, cell);
    }
  }

  lemma RegisterKeeps(db: DB, id: Id, cell: Cell)
    requires Inv(db) && Registering(db, id, cell).Ok?
    ensures Inv(Registering(db, id, cell).value) && Extends(db, Registering(db, id, cell).value)
  {
    hide Owned, Lockstep, Filed, Named, OneEach, Kept;
    hide KeepsPlacements, KeepsEnvs, KeepsReleases, KeepsDeployments, KeepsRows;
    ExtendsSelf(db);
    if id !in db.cells {
      var s := Registering(db, id, cell).value;
      forall p ensures PinnedRow(s.cells, s.placements, s.envs, p) {
        assert PinnedRow(db.cells, db.placements, db.envs, p);
      }
      forall p | p in db.placements ensures db.placements[p].cell != id {
        assert PinnedRow(db.cells, db.placements, db.envs, p);
      }
      NothingOn(db.placements, id);
    }
  }

  lemma OpenFrame(db: DB, id: Id, e: Environment)
    requires Pinned(db.cells, db.placements, db.envs) && Owned(db.envs, db.releases) && Named(db.envs, db.releases)
    requires id !in db.envs && e.active.None? && e.placement.None?
    ensures Pinned(db.cells, db.placements, db.envs[id := e]) && Owned(db.envs[id := e], db.releases) && Named(db.envs[id := e], db.releases)
  {
    hide Normal, ReleaseIdentity;
    var after := db.envs[id := e];
    forall p ensures PinnedRow(db.cells, db.placements, after, p) {
      assert PinnedRow(db.cells, db.placements, db.envs, p);
    }
    forall r ensures OwnedRow(after, db.releases, r) && NamedRow(after, db.releases, r) {
      assert OwnedRow(db.envs, db.releases, r) && NamedRow(db.envs, db.releases, r);
    }
    forall i ensures PinnedEnv(db.placements, after, i) && NamedEnv(after, db.releases, i) {
      assert PinnedEnv(db.placements, db.envs, i) && NamedEnv(db.envs, db.releases, i);
    }
  }

  lemma OpenFiles(db: DB, id: Id, e: Environment)
    requires Owned(db.envs, db.releases) && Filed(db.placements, db.envs, db.releases, db.deployments, db.commits) && id !in db.envs
    ensures Filed(db.placements, db.envs[id := e], db.releases, db.deployments, db.commits)
  {
    hide Normal, ReleaseIdentity;
    var more := db.envs[id := e];
    forall r ensures FiledRow(db.placements, more, db.releases, db.deployments, db.commits, r) {
      assert OwnedRow(db.envs, db.releases, r);
      assert FiledRow(db.placements, db.envs, db.releases, db.deployments, db.commits, r);
    }
  }

  lemma OpenKeeps(db: DB, id: Id, tenant: Id, application: Id, name: string)
    requires Inv(db) && Opening(db, id, tenant, application, name).Ok?
    ensures Inv(Opening(db, id, tenant, application, name).value) && Extends(db, Opening(db, id, tenant, application, name).value)
  {
    hide Balanced, Pinned, Owned, Lockstep, Filed, Named, OneEach, Kept;
    hide KeepsCells, KeepsPlacements, KeepsReleases, KeepsDeployments, KeepsRows;
    ExtendsSelf(db);
    OpenFrame(db, id, Environment(tenant, application, name, None, None));
    OpenFiles(db, id, Environment(tenant, application, name, None, None));
  }
}
