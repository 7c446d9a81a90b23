/** Deployments over whole runs: transactions of any number of workers interleave with pushes to the GitOps repository,
    every worker may stop after any of its steps, and the observer may report anything. */
module Rollout {
  import opened Int64
  import opened Normalize
  import opened Scheduling
  import opened ControlPlane
  import opened ControlPlaneSafety
  import Sums

  datatype Ack = Ack(release: Id, commit: GitCommit)

  /** Database and repository, and everything workers have ever had in hand: a worker that stops simply never uses it. */
  datatype World = World(db: DB, git: map<Id, GitCommit>, manifests: set<Manifest>, acks: set<Ack>, plans: set<Plan>)

  datatype Command =
    | RegisterCell(id: Id, cell: Cell)
    | OpenEnvironment(id: Id, tenant: Id, application: Id, name: string)
    | CreateRelease(req: Request, allowed: bool, id: Id, placement: Id)
    | PlanRollback(rollback: RollbackRequest, allowed: bool)
    | Rollback(plan: Plan, id: Id)
    | Prepare(release: Id)
    | Push(manifest: Manifest, sha: string)
    | Find(release: Id)
    | Record(ack: Ack)
    | Sync(release: Id)
    | Roll(release: Id)
    | Observe(release: Id, report: Report)

  function Start(catalog: map<string, int>): World {
    World(DB(catalog, map[], map[], map[], map[], map[], map[], map[]), map[], {}, {}, {})
  }

  /** A failed transaction leaves everything as it was. */
  function Commit(w: World, r: Result<DB>): World {
    if r.Ok? then w.(db := r.value) else w
  }

  ghost function Admitted(db: DB, c: Command): Result<Accepted>
    requires c.CreateRelease?
  {
    var a := Admit(db.catalog, c.req, c.allowed);
    if a.Err? then Err(a.code) else Creating(db, a.value.0, a.value.1, c.id, c.placement)
  }

  function Accept(r: Result<Accepted>): Result<DB> {
    match r case Ok(a) => Ok(a.db) case Err(c) => Err(c)
  }

  ghost function Step(w: World, c: Command): World {
    match c
    case RegisterCell(id, cell) => Commit(w, Registering(w.db, id, cell))
    case OpenEnvironment(id, tenant, application, name) => Commit(w, Opening(w.db, id, tenant, application, name))
    case CreateRelease(_, _, _, _) => Commit(w, Accept(Admitted(w.db, c)))
    case PlanRollback(rollback, allowed) =>
      var p := Planning(w.db, rollback, allowed);
      if p.Ok? && p.value.Planned? then w.(plans := w.plans + {p.value.plan}) else w
    case Rollback(plan, id) =>
      if plan in w.plans && plan.env in w.db.envs && plan.target in w.db.releases then Commit(w, Accept(RollingBack(w.db, plan, id))) else w
    case Prepare(r) => Prepared(w, r)
    case Push(m, sha) =>
      var p := Pushing(w.git, m, sha);
      if m in w.manifests && p.Ok? then w.(git := p.value.0, acks := w.acks + {Ack(m.release, p.value.1)}) else w
    case Find(r) => if r in w.git then w.(acks := w.acks + {Ack(r, w.git[r])}) else w
    case Record(a) => if a in w.acks then Commit(w, Recording(w.db, a.release, a.commit)) else w
    case Sync(r) => Commit(w, Syncing(w.db, r))
    case Roll(r) => Commit(w, Rolling(w.db, r))
    case Observe(r, report) => Commit(w, Observing(w.db, r, report))
  }

  ghost function Prepared(w: World, r: Id): World {
    if r !in w.db.releases then w
    else match Preparing(w.db, r)
      case Err(_) => w
      case Ok(p) => w.(db := p.0, manifests := if p.1.Some? then w.manifests + {p.1.value} else w.manifests)
  }

  ghost function Run(w: World, commands: seq<Command>): World
    decreases |commands|
  {
    if commands == [] then w else Run(Step(w, commands[0]), commands[1..])
  }

  // ---------------------------------------------------------------- invariant of a run

  /** A rendered manifest is of a deployed release, for the cell its deployment runs on. */
  ghost predicate Rendered(db: DB, m: Manifest) {
    && m.release in db.deployments && db.deployments[m.release].placement in db.placements
    && m.cell == db.placements[db.deployments[m.release].placement].cell
  }

  ghost predicate AllRendered(db: DB, manifests: set<Manifest>) {
    forall m | m in manifests :: Rendered(db, m)
  }

  /** The repository holds, for each release, one of its rendered manifests. */
  ghost predicate Indexed(git: map<Id, GitCommit>, manifests: set<Manifest>) {
    forall r | r in git :: git[r].manifest in manifests && git[r].manifest.release == r && git[r].cell == git[r].manifest.cell
  }

  ghost predicate Acknowledged(git: map<Id, GitCommit>, acks: set<Ack>) {
    forall a | a in acks :: a.release in git && git[a.release] == a.commit
  }

  ghost predicate Planable(db: DB, plans: set<Plan>) {
    forall p | p in plans :: p.env in db.envs && p.target in db.releases
  }

  ghost predicate Safe(w: World) {
    && Inv(w.db)
    && AllRendered(w.db, w.manifests)
    && Indexed(w.git, w.manifests)
    && Acknowledged(w.git, w.acks)
    && KeepsRows(w.db.commits, w.git)
    && Planable(w.db, w.plans)
  }

  ghost predicate Grows(a: World, b: World) {
    Extends(a.db, b.db) && KeepsRows(a.git, b.git) && a.manifests <= b.manifests && a.acks <= b.acks && a.plans <= b.plans
  }

  lemma RenderedStays(a: DB, b: DB, manifests: set<Manifest>, plans: set<Plan>)
    requires Extends(a, b) && AllRendered(a, manifests) && Planable(a, plans)
    ensures AllRendered(b, manifests) && Planable(b, plans)
  {
    hide KeepsRows, KeepsCells;
    forall m | m in manifests ensures Rendered(b, m) {
      assert Rendered(a, m) && SamePlace(a.placements[a.deployments[m.release].placement], b.placements[a.deployments[m.release].placement]);
    }
  }

  /** Transactions that leave the commit records alone. */
  lemma CommitSafe(w: World, r: Result<DB>)
    requires Safe(w) && (r.Ok? ==> Inv(r.value) && Extends(w.db, r.value) && KeepsRows(r.value.commits, w.git))
    ensures Safe(Commit(w, r)) && Grows(w, Commit(w, r))
  {
    hide Inv, Extends, AllRendered, Indexed, Acknowledged, Planable;
    ExtendsSelf(w.db);
    if r.Ok? {
      RenderedStays(w.db, r.value, w.manifests, w.plans);
    }
  }

  lemma Unpack(w: World)
    requires Safe(w)
    ensures Inv(w.db) && KeepsRows(w.db.commits, w.git) && Planable(w.db, w.plans) && Acknowledged(w.git, w.acks)
  {
    hide Inv, KeepsRows, Planable, Acknowledged;
  }

  lemma AcceptSafe(w: World, r: Result<Accepted>)
    requires Safe(w) && (r.Ok? ==> Inv(r.value.db) && Extends(w.db, r.value.db) && KeepsRows(r.value.db.commits, w.git))
    ensures Safe(Commit(w, Accept(r))) && Grows(w, Commit(w, Accept(r)))
  {
    hide Inv, Extends, Safe, Grows;
    CommitSafe(w, Accept(r));
  }

  lemma CreateCommits(db: DB, req: Request, units: int, id: Id, placement: Id)
    requires Creating(db, req, units, id, placement).Ok?
    ensures Creating(db, req, units, id, placement).value.db.commits == db.commits
  {
    hide Locate, Effective, ReleaseIdentity, NewRelease;
  }

  lemma CreateSafe(w: World, c: Command)
    requires Safe(w) && c.CreateRelease?
    ensures Safe(Step(w, c)) && Grows(w, Step(w, c))
  {
    hide Inv, Extends, Safe, Grows, Creating, Admit;
    Unpack(w);
    var a := Admit(w.db.catalog, c.req, c.allowed);
    if a.Ok? && Creating(w.db, a.value.0, a.value.1, c.id, c.placement).Ok? {
      CreateKeeps(w.db, a.value.0, a.value.1, c.id, c.placement);
      CreateCommits(w.db, a.value.0, a.value.1, c.id, c.placement);
    }
    AcceptSafe(w, Admitted(w.db, c));
  }

  lemma RollbackSafe(w: World, plan: Plan, id: Id)
    requires Safe(w)
    ensures Safe(Step(w, Rollback(plan, id))) && Grows(w, Step(w, Rollback(plan, id)))
  {
    hide Inv, Extends, Safe, Grows, NewRelease, Normal, Resize;
    Unpack(w);
    StaySafe(w);
    if plan in w.plans && plan.env in w.db.envs && plan.target in w.db.releases {
      if RollingBack(w.db, plan, id).Ok? {
        RollbackKeeps(w.db, plan, id);
        RollbackCommits(w.db, plan, id);
      }
      AcceptSafe(w, RollingBack(w.db, plan, id));
    }
  }

  lemma RollbackCommits(db: DB, plan: Plan, id: Id)
    requires plan.env in db.envs && plan.target in db.releases && RollingBack(db, plan, id).Ok?
    ensures RollingBack(db, plan, id).value.db.commits == db.commits
  {
    hide NewRelease, Normal;
  }

  lemma StaySafe(w: World)
    requires Safe(w)
    ensures Safe(w) && Grows(w, w)
  {
    hide Safe;
    ExtendsSelf(w.db);
  }

  lemma PlanSafe(w: World, c: Command)
    requires Safe(w) && c.PlanRollback?
    ensures Safe(Step(w, c)) && Grows(w, Step(w, c))
  {
    hide Inv, AllRendered, Indexed, Acknowledged, KeepsRows, Normal, Units;
    StaySafe(w);
  }

  lemma PrepareSafe(w: World, r: Id)
    requires Safe(w)
    ensures Safe(Prepared(w, r)) && Grows(w, Prepared(w, r))
  {
    hide Inv, Extends, Indexed, Acknowledged, Planable, KeepsRows;
    StaySafe(w);
    if r in w.db.releases && Preparing(w.db, r).Ok? {
      PrepareKeeps(w.db, r);
      hide Preparing;
      PrepareCommits(w.db, r);
      RenderedStays(w.db, Preparing(w.db, r).value.0, w.manifests, w.plans);
      IndexedGrows(w.git, w.manifests, Prepared(w, r).manifests);
    }
  }

  lemma PrepareCommits(db: DB, r: Id)
    requires r in db.releases && Preparing(db, r).Ok?
    ensures Preparing(db, r).value.0.commits == db.commits
  {}

  lemma IndexedGrows(git: map<Id, GitCommit>, a: set<Manifest>, b: set<Manifest>)
    requires Indexed(git, a) && a <= b
    ensures Indexed(git, b)
  {}

  lemma PushSafe(w: World, m: Manifest, sha: string)
    requires Safe(w)
    ensures Safe(Step(w, Push(m, sha))) && Grows(w, Step(w, Push(m, sha)))
  {
    hide Inv, Extends, AllRendered, Planable;
    ExtendsSelf(w.db);
  }

  lemma FindSafe(w: World, r: Id)
    requires Safe(w)
    ensures Safe(Step(w, Find(r))) && Grows(w, Step(w, Find(r)))
  {
    hide Inv, Extends, AllRendered, Planable, Indexed;
    ExtendsSelf(w.db);
  }

  /** What gets recorded for a release is exactly its entry in the repository. */
  lemma RecordedIsIndexed(w: World, r: Id, c: GitCommit)
    requires Safe(w) && r in w.git && w.git[r] == c && Recording(w.db, r, c).Ok?
    ensures var s := Recording(w.db, r, c).value;
            r in s.commits && s.commits[r] == c && s.commits == w.db.commits[r := c]
  {
    hide Inv, AllRendered, Acknowledged, Planable;
    assert Rendered(w.db, c.manifest) by {
      RenderedOf(w, r);
    }
  }

  lemma RenderedOf(w: World, r: Id)
    requires Safe(w) && r in w.git
    ensures Rendered(w.db, w.git[r].manifest) && w.git[r].manifest.release == r && w.git[r].cell == w.git[r].manifest.cell
  {
    hide Inv, Acknowledged, Planable, KeepsRows;
  }

  lemma RecordSafe(w: World, a: Ack)
    requires Safe(w)
    ensures Safe(Step(w, Record(a))) && Grows(w, Step(w, Record(a)))
  {
    hide Inv, Extends, AllRendered, Indexed, Planable;
    StaySafe(w);
    if a in w.acks {
      if Recording(w.db, a.release, a.commit).Ok? {
        RecordKeeps(w.db, a.release, a.commit);
        RecordedIsIndexed(w, a.release, a.commit);
      }
      hide Recording;
      CommitSafe(w, Recording(w.db, a.release, a.commit));
    }
  }

  lemma ObserveSafe(w: World, c: Command)
    requires Safe(w) && (c.Sync? || c.Roll? || c.Observe?)
    ensures Safe(Step(w, c)) && Grows(w, Step(w, c))
  {
    hide Inv, Extends, Safe, Grows, Superseding;
    Unpack(w);
    var r := if c.Sync? then Syncing(w.db, c.release) else if c.Roll? then Rolling(w.db, c.release) else Observing(w.db, c.release, c.report);
    if r.Ok? {
      assert r.value.commits == w.db.commits;
      if c.Sync? {
        SyncKeeps(w.db, c.release);
      } else if c.Roll? {
        RollKeeps(w.db, c.release);
      } else {
        ObserveKeeps(w.db, c.release, c.report);
      }
    }
    hide Syncing, Rolling, Observing;
    CommitSafe(w, r);
  }

  lemma ConfigureSafe(w: World, c: Command)
    requires Safe(w) && (c.RegisterCell? || c.OpenEnvironment?)
    ensures Safe(Step(w, c)) && Grows(w, Step(w, c))
  {
    hide Inv, Extends, Safe, Grows;
    Unpack(w);
    var r := if c.RegisterCell? then Registering(w.db, c.id, c.cell) else Opening(w.db, c.id, c.tenant, c.application, c.name);
    if r.Ok? {
      assert r.value.commits == w.db.commits;
      if c.RegisterCell? {
        RegisterKeeps(w.db, c.id, c.cell);
      } else {
        OpenKeeps(w.db, c.id, c.tenant, c.application, c.name);
      }
    }
    hide Registering, Opening;
    CommitSafe(w, r);
  }

  lemma StepSafe(w: World, c: Command)
    requires Safe(w)
    ensures Safe(Step(w, c)) && Grows(w, Step(w, c))
  {
    hide Safe, Grows;
    match c
    case RegisterCell(_, _) => ConfigureSafe(w, c);
    case OpenEnvironment(_, _, _, _) => ConfigureSafe(w, c);
    case CreateRelease(_, _, _, _) => CreateSafe(w, c);
    case PlanRollback(_, _) => PlanSafe(w, c);
    case Rollback(plan, id) => RollbackSafe(w, plan, id);
    case Prepare(r) => PrepareSafe(w, r);
    case Push(m, sha) => PushSafe(w, m, sha);
    case Find(r) => FindSafe(w, r);
    case Record(a) => RecordSafe(w, a);
    case Sync(_) => ObserveSafe(w, c);
    case Roll(_) => ObserveSafe(w, c);
    case Observe(_, _) => ObserveSafe(w, c);
  }

  lemma GrowsTransitive(a: World, b: World, c: World)
    requires Grows(a, b) && Grows(b, c)
    ensures Grows(a, c)
  {
    hide Extends;
    ExtendsTransitive(a.db, b.db, c.db);
  }

  /** Over any run: the invariant holds, and nothing recorded is ever lost or replaced. */
  lemma {:induction false} RunSafe(w: World, commands: seq<Command>)
    requires Safe(w)
    ensures Safe(Run(w, commands)) && Grows(w, Run(w, commands))
    decreases |commands|
  {
    hide Safe, Grows, Step;
    if commands == [] {
      StaySafe(w);
    } else {
      StepSafe(w, commands[0]);
      RunSafe(Step(w, commands[0]), commands[1..]);
      GrowsTransitive(w, Step(w, commands[0]), Run(w, commands));
    }
  }

  lemma StartSafe(catalog: map<string, int>)
    ensures Safe(Start(catalog))
  {}
}
