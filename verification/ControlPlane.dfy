/** The runtime control plane: placements on cells, releases, deployments and their GitOps commits, each command one
    transaction that either commits the whole new state or leaves the old one. */
module ControlPlane {
  import opened Int64
  import opened Normalize
  import opened Scheduling
  import Sums

  datatype Code = InvalidArgument | NotFound | Conflict | Capacity | PolicyRejected | Internal

  datatype Result<+T> = Ok(value: T) | Err(code: Code)

  // ---------------------------------------------------------------- rows

  datatype Placement = Placement(env: Id, cell: Id, region: string, isolation: Isolation, current: bool, units: int)

  datatype Environment = Environment(tenant: Id, application: Id, name: string, active: Option<Id>, placement: Option<Id>)

  datatype ReleaseState = Created | Validated | CommittedToGitOps | Deploying | Active | Superseded | FailedRelease

  datatype Release = Release(
    tenant: Id, application: Id, env: Id, artifact: string, config: Config, identity: Identity,
    rollbackOf: Option<Id>, state: ReleaseState)

  datatype Phase = Pending | GitCommitted | ArgoSyncing | RollingOut | Ready | Degraded | FailedDeployment

  datatype Deployment = Deployment(placement: Id, previous: Option<Id>, phase: Phase, sha: string)

  /** What is rendered for a release: its own immutable content, the release active at that moment, the cell's path. */
  datatype Manifest = Manifest(release: Id, active: Option<Id>, cell: Id)

  datatype GitCommit = GitCommit(cell: Id, manifest: Manifest, sha: string)

  datatype Scope = CreateScope | RollbackScope

  datatype RequestKey = RequestKey(tenant: Id, scope: Scope, key: string)

  datatype Fingerprint =
    | OfCreate(application: Id, env: Id, artifact: string, config: Config)
    | OfRollback(env: Id, target: Id, critical: bool)

  datatype Remembered = Remembered(fingerprint: Fingerprint, release: Id)

  /** Deployments and commits are keyed by the release they belong to: the store refuses a second one. */
  datatype DB = DB(
    catalog: map<string, int>, cells: map<Id, Cell>, placements: map<Id, Placement>, envs: map<Id, Environment>,
    releases: map<Id, Release>, deployments: map<Id, Deployment>, commits: map<Id, GitCommit>,
    requests: map<RequestKey, Remembered>)

  // ---------------------------------------------------------------- state machines

  predicate MayMove(from: Phase, to: Phase) {
    match from
    case Pending => to.GitCommitted? || to.FailedDeployment?
    case GitCommitted => to.ArgoSyncing? || to.FailedDeployment?
    case ArgoSyncing => to.RollingOut? || to.Degraded? || to.FailedDeployment?
    case RollingOut => to.Ready? || to.Degraded? || to.FailedDeployment?
    case Degraded => to.RollingOut? || to.Ready? || to.FailedDeployment?
    case _ => false
  }

  predicate MayTurn(from: ReleaseState, to: ReleaseState) {
    match from
    case Created => to.Validated?
    case Validated => to.CommittedToGitOps? || to.FailedRelease?
    case CommittedToGitOps => to.Deploying? || to.FailedRelease?
    case Deploying => to.Active? || to.FailedRelease?
    case Active => to.Superseded?
    case _ => false
  }

  function Move(from: Phase, to: Phase): Result<Phase> {
    if from == to || MayMove(from, to) then Ok(to) else Err(Conflict)
  }

  function Turn(from: ReleaseState, to: ReleaseState): Result<ReleaseState> {
    if from == to || MayTurn(from, to) then Ok(to) else Err(Conflict)
  }

  // ---------------------------------------------------------------- lookups

  ghost function Current(placements: map<Id, Placement>, env: Id): (r: Option<Id>)
    ensures r.Some? ==> r.value in placements && placements[r.value].env == env && placements[r.value].current
    ensures r.None? ==> forall p | p in placements :: placements[p].env != env || !placements[p].current
  {
    if p :| p in placements && placements[p].env == env && placements[p].current then Some(p) else None
  }

  predicate Carries(r: Release, tenant: Id, env: Id, identity: Identity) {
    r.tenant == tenant && r.env == env && r.identity == identity && r.rollbackOf.None?
  }

  ghost function FindByIdentity(releases: map<Id, Release>, tenant: Id, env: Id, identity: Identity): (r: Option<Id>)
    ensures r.Some? ==> r.value in releases && Carries(releases[r.value], tenant, env, identity)
    ensures r.None? ==> forall i | i in releases :: !Carries(releases[i], tenant, env, identity)
  {
    if i :| i in releases && Carries(releases[i], tenant, env, identity) then Some(i) else None
  }

  ghost function Best(cells: map<Id, Cell>, region: string, isolation: Isolation, units: int): (r: Option<Id>)
    ensures r.Some? ==> IsBest(cells, region, isolation, units, r.value)
    ensures r.None? ==> forall x :: !IsBest(cells, region, isolation, units, x)
  {
    if c :| IsBest(cells, region, isolation, units, c) then Some(c) else None
  }

  function Hostname(application: Id, environment: string, ingress: string): string {
    application + "-" + environment + "." + ingress
  }

  // ---------------------------------------------------------------- capacity

  /** Moves the difference between the old and the new size to or from the cell. */
  function Resize(db: DB, id: Id, units: int): Result<DB>
    requires id in db.placements
  {
    var p := db.placements[id];
    if p.units == units then Ok(db)
    else if p.cell !in db.cells then Err(Internal)
    else
      var cell := db.cells[p.cell];
      var moved := if units > p.units then cell.Allocate(units - p.units) else cell.Release(p.units - units);
      if moved.None? then Err(if units > p.units then Capacity else InvalidArgument)
      else if units <= 0 then Err(InvalidArgument)
      else Ok(db.(cells := db.cells[p.cell := moved.value], placements := db.placements[id := p.(units := units)]))
  }

  /** A first placement: allocate on the cell, insert the row, and pin it to the environment. */
  function Place(db: DB, id: Id, env: Id, cell: Id, isolation: Isolation, units: int): Result<DB>
    requires env in db.envs && cell in db.cells
  {
    var c := db.cells[cell];
    if !c.CanPlace(c.region, isolation, units) then Err(InvalidArgument)
    else if c.Allocate(units).None? then Err(Capacity)
    else if id in db.placements then Err(Conflict)
    else if db.envs[env].placement.Some? && db.envs[env].placement.value != id then Err(Conflict)
    else Ok(db.(
      cells := db.cells[cell := c.Allocate(units).value],
      placements := db.placements[id := Placement(env, cell, c.region, isolation, true, units)],
      envs := db.envs[env := db.envs[env].(placement := Some(id))]))
  }

  // ---------------------------------------------------------------- releases

  datatype Request = Request(tenant: Id, application: Id, env: Id, artifact: string, config: Config, key: string)

  datatype Accepted = Accepted(db: DB, release: Id)

  datatype Spot = Spot(cell: Id, current: Option<Id>)

  /** The cell of the environment's placement, or the scheduler's choice for a first one. */
  ghost function Locate(db: DB, env: Id, config: Config, units: int): (r: Result<Spot>)
    ensures r.Ok? ==> r.value.cell in db.cells && (r.value.current.Some? ==> r.value.current.value in db.placements)
  {
    match Current(db.placements, env)
    case Some(p) =>
      if db.placements[p].cell !in db.cells then Err(Internal)
      else if db.placements[p].region != config.region || db.placements[p].isolation != config.isolation then Err(Conflict)
      else Ok(Spot(db.placements[p].cell, Some(p)))
    case None =>
      match Best(db.cells, config.region, config.isolation, units)
      case None => Err(Capacity)
      case Some(c) => Ok(Spot(c, None))
  }

  ghost function Effective(db: DB, req: Request, cell: Id): Config
    requires req.env in db.envs && cell in db.cells
  {
    req.config.(hostname := Hostname(req.application, db.envs[req.env].name, db.cells[cell].domain))
  }

  /** A remembered command answers with the release it made, provided the request is the same. */
  function Recall(db: DB, key: RequestKey, fingerprint: Fingerprint, placed: bool): Result<Accepted>
    requires key in db.requests
  {
    var m := db.requests[key];
    if m.fingerprint != fingerprint then Err(Conflict)
    else if m.release !in db.releases || !placed then Err(Internal)
    else Ok(Accepted(db, m.release))
  }

  function Insert(db: DB, id: Id, release: Release, key: RequestKey, fingerprint: Fingerprint): Result<Accepted> {
    if id in db.releases then Err(Conflict)
    else Ok(Accepted(db.(releases := db.releases[id := release], requests := db.requests[key := Remembered(fingerprint, id)]), id))
  }

  /** The write transaction of a release command whose configuration is already normalised. */
  ghost function Creating(db: DB, req: Request, units: int, id: Id, placement: Id): Result<Accepted> {
    if req.env !in db.envs || db.envs[req.env].application != req.application || db.envs[req.env].tenant != req.tenant then Err(NotFound)
    else
      var spot := Locate(db, req.env, req.config, units);
      if spot.Err? then Err(spot.code)
      else
        var config := Effective(db, req, spot.value.cell);
        var key := RequestKey(req.tenant, CreateScope, req.key);
        var fingerprint := OfCreate(req.application, req.env, req.artifact, config);
        if key in db.requests then Recall(db, key, fingerprint, spot.value.current.Some?)
        else Fresh(db, req, units, id, placement, spot.value, config)
  }

  /** No command under this key yet: an identical release is returned, a new one takes capacity first. */
  ghost function Fresh(db: DB, req: Request, units: int, id: Id, placement: Id, spot: Spot, config: Config): Result<Accepted>
    requires req.env in db.envs && spot.cell in db.cells && (spot.current.Some? ==> spot.current.value in db.placements)
  {
    var key := RequestKey(req.tenant, CreateScope, req.key);
    var fingerprint := OfCreate(req.application, req.env, req.artifact, config);
    var identity := ReleaseIdentity(req.env, req.artifact, config);
    if identity.None? then Err(InvalidArgument)
    else
      var existing := FindByIdentity(db.releases, req.tenant, req.env, identity.value);
      if existing.Some? then
        if spot.current.None? then Err(Internal)
        else Ok(Accepted(db.(requests := db.requests[key := Remembered(fingerprint, existing.value)]), existing.value))
      else
        var placed := if spot.current.Some? then Resize(db, spot.current.value, units)
                      else Place(db, placement, req.env, spot.cell, req.config.isolation, units);
        if placed.Err? then Err(placed.code)
        else
          var release := NewRelease(req.tenant, req.application, req.env, req.artifact, config, None);
          if release.None? then Err(InvalidArgument) else Insert(placed.value, id, release.value, key, fingerprint)
  }

  /** A release is created and validated before it is first stored. */
  ghost function NewRelease(tenant: Id, application: Id, env: Id, artifact: string, config: Config, rollbackOf: Option<Id>): Option<Release> {
    var identity := NewReleaseIdentity(env, artifact, config);
    if identity.None? then None
    else Some(Release(tenant, application, env, artifact, Normal(config).value, identity.value, rollbackOf, Validated))
  }

  /** Everything before the write transaction: normal form, requested units, artifact policy. */
  ghost function Admit(catalog: map<string, int>, req: Request, allowed: bool): Result<(Request, int)> {
    match Normal(req.config.(hostname := ""))
    case None => Err(InvalidArgument)
    case Some(config) =>
      var weight := if config.unit in catalog then Some(catalog[config.unit]) else None;
      match Units(weight, config.processes)
      case None => Err(InvalidArgument)
      case Some(units) => if allowed then Ok((req.(config := config), units)) else Err(PolicyRejected)
  }

  /** The read transaction of a release command: a remembered one is answered before capacity or policy are looked at. */
  ghost function Replay(db: DB, req: Request): Result<Option<Id>> {
    var key := RequestKey(req.tenant, CreateScope, req.key);
    if key !in db.requests then Ok(None)
    else if req.env !in db.envs || db.envs[req.env].application != req.application || db.envs[req.env].tenant != req.tenant then Err(NotFound)
    else match Current(db.placements, req.env)
      case None => Err(Internal)
      case Some(p) =>
        if db.placements[p].cell !in db.cells then Err(Internal)
        else
          var m := db.requests[key];
          if m.fingerprint != OfCreate(req.application, req.env, req.artifact, Effective(db, req, db.placements[p].cell)) then Err(Conflict)
          else if m.release !in db.releases || db.releases[m.release].application != req.application || db.releases[m.release].env != req.env
          then Err(Internal)
          else Ok(Some(m.release))
  }

  /** A whole release command: normal form, replay in what its read transaction saw, then size, policy and, in whatever the
      database has become, the write transaction. */
  ghost function Commanding(seen: DB, db: DB, req: Request, allowed: bool, id: Id, placement: Id): Result<Accepted> {
    var config := Normal(req.config.(hostname := ""));
    if config.None? then Err(InvalidArgument)
    else
      var replay := Replay(seen, req.(config := config.value));
      if replay.Err? then Err(replay.code)
      else if replay.value.Some? then Ok(Accepted(db, replay.value.value))
      else
        var a := Admit(seen.catalog, req, allowed);
        if a.Err? then Err(a.code) else Creating(db, a.value.0, a.value.1, id, placement)
  }

  // ---------------------------------------------------------------- rollback

  /** What the read transaction of a rollback works out: the release of a command already accepted, or a plan for the
      write transaction. */
  datatype Plan = Plan(env: Id, target: Id, critical: bool, key: string, placement: Id, config: Config, units: int)

  datatype Answer = Replayed(release: Id) | Planned(plan: Plan)

  datatype RollbackRequest = RollbackRequest(tenant: Id, env: Id, target: Id, critical: bool, key: string)

  ghost function Planning(db: DB, req: RollbackRequest, allowed: bool): Result<Answer> {
    if req.env !in db.envs || (req.tenant != "" && db.envs[req.env].tenant != req.tenant) then Err(NotFound)
    else
      var e := db.envs[req.env];
      var key := RequestKey(e.tenant, RollbackScope, req.key);
      if key in db.requests then Replaying(db, key, req)
      else if req.target !in db.releases || db.releases[req.target].env != req.env then Err(NotFound)
      else match Current(db.placements, req.env)
        case None => Err(Internal)
        case Some(p) => if db.placements[p].cell !in db.cells then Err(Internal) else Drafting(db, req, p, allowed)
  }

  /** A remembered rollback is answered before the artifact policy is consulted again. */
  ghost function Replaying(db: DB, key: RequestKey, req: RollbackRequest): Result<Answer>
    requires key in db.requests
  {
    var m := db.requests[key];
    if m.fingerprint != OfRollback(req.env, req.target, req.critical) then Err(Conflict)
    else if m.release !in db.releases || db.releases[m.release].env != req.env || db.releases[m.release].rollbackOf.None? then Err(Internal)
    else if Current(db.placements, req.env).None? then Err(Internal)
    else Ok(Replayed(m.release))
  }

  /** The target's configuration, moved to where the environment runs. */
  ghost function Drafting(db: DB, req: RollbackRequest, p: Id, allowed: bool): Result<Answer>
    requires req.env in db.envs && req.target in db.releases && p in db.placements && db.placements[p].cell in db.cells
  {
    var e := db.envs[req.env];
    var raw := db.releases[req.target].config.(
      region := db.placements[p].region, isolation := db.placements[p].isolation,
      hostname := Hostname(e.application, e.name, db.cells[db.placements[p].cell].domain));
    match Normal(raw)
    case None => Err(InvalidArgument)
    case Some(config) =>
      var weight := if config.unit in db.catalog then Some(db.catalog[config.unit]) else None;
      match Units(weight, config.processes)
      case None => Err(InvalidArgument)
      case Some(units) =>
        if allowed || req.critical then Ok(Planned(Plan(req.env, req.target, req.critical, req.key, p, config, units)))
        else Err(PolicyRejected)
  }

  ghost function RollingBack(db: DB, plan: Plan, id: Id): Result<Accepted>
    requires plan.env in db.envs && plan.target in db.releases
  {
    var e := db.envs[plan.env];
    var key := RequestKey(e.tenant, RollbackScope, plan.key);
    var fingerprint := OfRollback(plan.env, plan.target, plan.critical);
    var current := Current(db.placements, plan.env);
    if key in db.requests then Recall(db, key, fingerprint, current.Some?)
    else if current.None? || current.value != plan.placement then Err(Conflict)
    else if db.placements[plan.placement].region != plan.config.region || db.placements[plan.placement].isolation != plan.config.isolation then Err(Conflict)
    else
      var resized := Resize(db, plan.placement, plan.units);
      var release := NewRelease(e.tenant, e.application, plan.env, db.releases[plan.target].artifact, plan.config, Some(plan.target));
      if resized.Err? then Err(resized.code)
      else if release.None? then Err(InvalidArgument)
      else Insert(resized.value, id, release.value, key, fingerprint)
  }

  // ---------------------------------------------------------------- deployment and GitOps

  /** The second transaction of Deploy: one deployment per release, remembering the release it replaces. */
  ghost function Preparing(db: DB, r: Id): Result<(DB, Option<Manifest>)>
    requires r in db.releases
  {
    var env := db.releases[r].env;
    if env !in db.envs || Current(db.placements, env).None? then Err(Internal)
    else
      var p := Current(db.placements, env).value;
      var m := Manifest(r, db.envs[env].active, db.placements[p].cell);
      if db.placements[p].cell !in db.cells then Err(Internal)
      else if r in db.deployments then Ok((db, if db.deployments[r].phase.Pending? then Some(m) else None))
      else Ok((db.(deployments := db.deployments[r := Deployment(p, db.envs[env].active, Pending, "")]), Some(m)))
  }

  /** The repository keeps one index entry per release for ever. */
  function Pushing(git: map<Id, GitCommit>, m: Manifest, sha: string): Result<(map<Id, GitCommit>, GitCommit)> {
    if m.release in git then
      if git[m.release].manifest == m && git[m.release].cell == m.cell then Ok((git, git[m.release])) else Err(Conflict)
    else
      var c := GitCommit(m.cell, m, sha);
      Ok((git[m.release := c], c))
  }

  function Finding(git: map<Id, GitCommit>, r: Id, cell: Id): Result<Option<GitCommit>> {
    if r !in git then Ok(None)
    else if git[r].cell != cell then Err(Conflict)
    else Ok(Some(git[r]))
  }

  predicate ValidSha(sha: string) {
    7 <= |sha| <= 64 && forall c | c in sha :: c !in {'\r', '\n', '\0', ' '}
  }

  function RecordCommit(d: Deployment, sha: string): Result<Deployment> {
    if !ValidSha(sha) then Err(InvalidArgument)
    else if d.sha != "" then if d.sha == sha then Ok(d) else Err(Conflict)
    else match Move(d.phase, GitCommitted)
      case Err(c) => Err(c)
      case Ok(phase) => Ok(d.(phase := phase, sha := sha))
  }

  function Recording(db: DB, r: Id, c: GitCommit): Result<DB> {
    if r in db.commits then
      if db.commits[r].sha != c.sha || db.commits[r].manifest != c.manifest then Err(Conflict) else Ok(db)
    else if r !in db.releases || r !in db.deployments then Err(NotFound)
    else if db.deployments[r].placement !in db.placements then Err(Internal)
    else
      var d := RecordCommit(db.deployments[r], c.sha);
      var state := Turn(db.releases[r].state, CommittedToGitOps);
      if d.Err? then Err(d.code)
      else if state.Err? then Err(state.code)
      else Ok(db.(
        commits := db.commits[r := GitCommit(db.placements[db.deployments[r].placement].cell, c.manifest, c.sha)],
        deployments := db.deployments[r := d.value],
        releases := db.releases[r := db.releases[r].(state := state.value)]))
  }

  /** ReconcileGitOps: nothing to do once recorded, otherwise record what the repository holds. */
  function Recovering(db: DB, git: map<Id, GitCommit>, r: Id): Result<DB> {
    if r in db.commits then Ok(db)
    else if r !in db.deployments then Err(NotFound)
    else if db.deployments[r].placement !in db.placements then Err(Internal)
    else match Finding(git, r, db.placements[db.deployments[r].placement].cell)
      case Err(c) => Err(c)
      case Ok(None) => Err(NotFound)
      case Ok(Some(c)) => Recording(db, r, c)
  }

  // ---------------------------------------------------------------- observed status

  datatype Report = ReportReady(active: Id, wellFormed: bool) | ReportDegraded | ReportOther

  function Syncing(db: DB, r: Id): Result<DB> {
    if r !in db.deployments then Err(NotFound)
    else if db.deployments[r].phase.GitCommitted? then
      Ok(db.(deployments := db.deployments[r := db.deployments[r].(phase := ArgoSyncing)]))
    else Ok(db)
  }

  function Started(state: ReleaseState): ReleaseState {
    if state.CommittedToGitOps? then Deploying else state
  }

  function Rolling(db: DB, r: Id): Result<DB> {
    if r !in db.deployments then Err(NotFound)
    else if r !in db.releases then Err(Internal)
    else
      var phase := db.deployments[r].phase;
      var next := if phase.GitCommitted? || phase.ArgoSyncing? || phase.Degraded? then RollingOut else phase;
      Ok(db.(deployments := db.deployments[r := db.deployments[r].(phase := next)],
             releases := db.releases[r := db.releases[r].(state := Started(db.releases[r].state))]))
  }

  /** All other active releases of the environment give way. */
  function Superseding(releases: map<Id, Release>, env: Id, r: Id): map<Id, Release> {
    map i | i in releases ::
      if i != r && releases[i].env == env && releases[i].state.Active? then releases[i].(state := Superseded) else releases[i]
  }

  function Observing(db: DB, r: Id, report: Report): Result<DB> {
    if r !in db.deployments then Err(NotFound)
    else if r !in db.releases || db.releases[r].env !in db.envs then Err(Internal)
    else
      var env := db.releases[r].env;
      var phase := if db.deployments[r].phase.GitCommitted? || db.deployments[r].phase.ArgoSyncing? then RollingOut else db.deployments[r].phase;
      var state := Started(db.releases[r].state);
      match report
      case ReportReady(active, wellFormed) =>
        if active != r then Err(Conflict)
        else if !wellFormed then Err(InvalidArgument)
        else if Move(phase, Ready).Err? then Err(Conflict)
        else Ok(db.(
          deployments := db.deployments[r := db.deployments[r].(phase := Ready)],
          releases := Superseding(db.releases, env, r)[r := db.releases[r].(state := if state.Deploying? then Active else state)],
          envs := db.envs[env := db.envs[env].(active := Some(r))]))
      case ReportDegraded =>
        if Move(phase, Degraded).Err? then Err(Conflict) else Ok(Advanced(db, r, Degraded, state))
      case ReportOther =>
        Ok(Advanced(db, r, if phase.Degraded? then RollingOut else phase, state))
  }

  function Advanced(db: DB, r: Id, phase: Phase, state: ReleaseState): DB
    requires r in db.deployments && r in db.releases
  {
    db.(deployments := db.deployments[r := db.deployments[r].(phase := phase)],
        releases := db.releases[r := db.releases[r].(state := state)])
  }

  // ---------------------------------------------------------------- cells and environments

  function Registering(db: DB, id: Id, cell: Cell): Result<DB> {
    if cell.capacity <= 0 || cell.isolations == {} then Err(InvalidArgument)
    else if id in db.cells then
      var c := db.cells[id];
      if c.(state := cell.state, used := cell.used) == cell then Ok(db) else Err(Conflict)
    else Ok(db.(cells := db.cells[id := cell.(state := ActiveCell, used := 0)]))
  }

  function Opening(db: DB, id: Id, tenant: Id, application: Id, name: string): Result<DB> {
    if id in db.envs || exists e | e in db.envs :: db.envs[e].application == application && db.envs[e].name == name then Err(Conflict)
    else Ok(db.(envs := db.envs[id := Environment(tenant, application, name, None, None)]))
  }
}
