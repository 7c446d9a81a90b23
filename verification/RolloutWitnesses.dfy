/** Reachable worlds in which a property of the control plane fails once its condition does. */
module RolloutWitnesses {
  import opened Int64
  import opened Normalize
  import opened Scheduling
  import opened ControlPlane
  import opened ControlPlaneSafety
  import opened Rollout
  import opened RolloutTheorems
  import Sums

  // ---------------------------------------------------------------- a small control plane

  const WEB := Normalize.Process(["run"], 8080, 1, 1, "", 60, 30)

  function Sample(hostname: string): Config {
    Config("eu", "small", hostname, "none", "public-default", Sandboxed, map["web" := WEB], [], 0, 300)
  }

  function Asking(env: Id, artifact: string, key: string): Request {
    Request("t", "a", env, artifact, Sample(""), key)
  }

  const CELL := Cell("eu", {Sandboxed}, ActiveCell, 10, 0, "example.org")

  const CATALOG: map<string, int> := map["small" := 1]

  lemma Lowercase(s: string)
    requires s != "" ==> !IsSpace(s[0]) && !IsSpace(s[|s| - 1])
    requires forall i | 0 <= i < |s| :: !('A' <= s[i] <= 'Z')
    ensures Clean(s) == s && Trim(s) == s
  {
    assert Trim(s) == s;
    assert ToLower(s) == s;
  }

  lemma OneProcess()
    ensures CleanProcesses(map["web" := WEB]) == map["web" := WEB]
  {
    var m := map["web" := WEB];
    Lowercase("web");
    assert IsLast(m.Keys, "web", "web");
    forall k | k in (set n | n in m :: Clean(n)) ensures k == "web" && LastNamed(m.Keys, k) == "web" {
      assert LastNamed(m.Keys, k) in m.Keys;
    }
  }

  lemma Labelled(s: string)
    requires 1 <= |s| <= 63 && forall i | 0 <= i < |s| :: 'a' <= s[i] <= 'z'
    ensures ValidLabel(s) && Clean(s) == s
  {
    Lowercase(s);
  }

  lemma SampleScalars(hostname: string)
    ensures Scalars(Sample(hostname)) == Sample(Clean(hostname))
  {
    Lowercase("eu");
    Lowercase("small");
    Lowercase("none");
    Lowercase("public-default");
    hide Clean, Trim;
  }

  lemma SampleValid(hostname: string)
    ensures ValidScalars(Sample(hostname)) && ValidProcess("web", WEB) && Routable(map["web" := WEB])
  {
    Labelled("eu");
    Labelled("small");
    Labelled("web");
    hide Clean, Trim, ValidLabel;
    assert "web" in map["web" := WEB];
  }

  /** The sample is in normal form, wherever it is served. */
  lemma SampleNormal(hostname: string)
    ensures Normal(Sample(hostname)) == Some(Sample(Clean(hostname)))
  {
    hide CleanProcesses, Clean, Scalars, ValidScalars, ValidProcess, Routable;
    SampleScalars(hostname);
    SampleValid(Clean(hostname));
    OneProcess();
    var m := map["web" := WEB];
    forall n | n in m ensures ValidProcess(n, m[n]) {
      assert n == "web";
    }
  }

  lemma SampleUnits()
    ensures Units(Some(1), map["web" := WEB]) == Some(1)
  {
    var m := map["web" := WEB];
    Sums.Remove(m, "web", Minimum());
    assert m - {"web"} == map[];
    assert m["web"] == WEB;
  }

  // ---------------------------------------------------------------- two releases in one environment

  const HOST := Hostname("a", "prod", "example.org")

  function Placed(): Environment {
    Environment("t", "a", "prod", None, Some("p"))
  }

  function Unplaced(name: string): Environment {
    Environment("t", "a", name, None, None)
  }

  const FIRST := RequestKey("t", CreateScope, "k1")

  const SECOND := RequestKey("t", CreateScope, "k2")

  function Made(artifact: string): Release {
    Release("t", "a", "e", artifact, Sample(Clean(HOST)), Identity("e", artifact, Sample(Clean(HOST))), None, Validated)
  }

  function Asked(artifact: string): Fingerprint {
    OfCreate("a", "e", artifact, Sample(HOST))
  }

  /** One cell and two environments. */
  function Opened(): DB {
    DB(CATALOG, map["c" := CELL], map[], map["e" := Unplaced("prod"), "d" := Unplaced("dev")], map[], map[], map[], map[])
  }

  /** The first environment is placed and has a release. */
  function One(): DB {
    DB(CATALOG, map["c" := CELL.(used := 1)], map["p" := ControlPlane.Placement("e", "c", "eu", Sandboxed, true, 1)],
       map["e" := Placed(), "d" := Unplaced("dev")], map["r1" := Made("one")], map[], map[],
       map[FIRST := Remembered(Asked("one"), "r1")])
  }

  /** And a second one. */
  function Two(): DB {
    One().(releases := map["r1" := Made("one"), "r2" := Made("two")],
           requests := map[FIRST := Remembered(Asked("one"), "r1"), SECOND := Remembered(Asked("two"), "r2")])
  }

  lemma MadeNew(artifact: string)
    ensures NewRelease("t", "a", "e", artifact, Sample(HOST), None) == Some(Made(artifact))
    ensures ReleaseIdentity("e", artifact, Sample(HOST)) == Some(Made(artifact).identity)
  {
    SampleNormal(HOST);
    SampleNormal(Clean(HOST));
    CleanIdempotent(HOST);
    hide Normal, Clean;
  }

  lemma AdmitsSample(env: Id, artifact: string, key: string)
    ensures Admit(CATALOG, Asking(env, artifact, key), true) == Ok((Asking(env, artifact, key), 1))
  {
    hide Normal, Clean, Units, IsSpace;
    SampleNormal("");
    SampleUnits();
    NothingClean();
    assert Asking(env, artifact, key).config.(hostname := "") == Sample("");
    assert "small" in CATALOG && CATALOG["small"] == 1;
  }

  lemma NothingClean()
    ensures Clean("") == ""
  {}

  /** The first release of an environment, on the only cell. */
  lemma CreatesFirst(db: DB, req: Request, units: int, id: Id, placement: Id, cell: Id, config: Config, release: Release)
    requires db.placements == map[] && db.releases == map[] && db.requests == map[] && db.cells.Keys == {cell}
    requires req.env in db.envs && db.envs[req.env].application == req.application && db.envs[req.env].tenant == req.tenant
    requires db.envs[req.env].placement.None? && db.cells[cell].CanPlace(req.config.region, req.config.isolation, units)
    requires config == Effective(db, req, cell)
    requires NewRelease(req.tenant, req.application, req.env, req.artifact, config, None) == Some(release)
    requires ReleaseIdentity(req.env, req.artifact, config) == Some(release.identity)
    ensures Creating(db, req, units, id, placement) == Ok(Accepted(db.(
              cells := db.cells[cell := db.cells[cell].(used := db.cells[cell].used + units)],
              placements := map[placement := ControlPlane.Placement(req.env, cell, req.config.region, req.config.isolation, true, units)],
              envs := db.envs[req.env := db.envs[req.env].(placement := Some(placement))],
              releases := map[id := release],
              requests := map[RequestKey(req.tenant, CreateScope, req.key) := Remembered(OfCreate(req.application, req.env, req.artifact, config), id)]), id))
  {
    hide NewRelease, ReleaseIdentity;
    assert IsBest(db.cells, req.config.region, req.config.isolation, units, cell);
    assert Locate(db, req.env, req.config, units) == Ok(Spot(cell, None));
  }

  /** Another release of the same size in the same place. */
  lemma CreatesNext(db: DB, req: Request, units: int, id: Id, placement: Id, p: Id, config: Config, release: Release)
    requires db.placements.Keys == {p} && id !in db.releases && RequestKey(req.tenant, CreateScope, req.key) !in db.requests
    requires req.env in db.envs && db.envs[req.env].application == req.application && db.envs[req.env].tenant == req.tenant
    requires var x := db.placements[p];
             x.env == req.env && x.current && x.units == units && x.cell in db.cells && x.region == req.config.region && x.isolation == req.config.isolation
    requires config == Effective(db, req, db.placements[p].cell)
    requires NewRelease(req.tenant, req.application, req.env, req.artifact, config, None) == Some(release)
    requires ReleaseIdentity(req.env, req.artifact, config) == Some(release.identity)
    requires forall r | r in db.releases :: db.releases[r].identity != release.identity
    ensures Creating(db, req, units, id, placement) == Ok(Accepted(db.(
              releases := db.releases[id := release],
              requests := db.requests[RequestKey(req.tenant, CreateScope, req.key) :=
                Remembered(OfCreate(req.application, req.env, req.artifact, config), id)]), id))
  {
    hide NewRelease, ReleaseIdentity;
    assert Locate(db, req.env, req.config, units) == Ok(Spot(db.placements[p].cell, Some(p)));
  }

  lemma MakesOne()
    ensures Creating(Opened(), Asking("e", "one", "k1"), 1, "r1", "p") == Ok(Accepted(One(), "r1"))
  {
    hide NewRelease, ReleaseIdentity, Clean, Hostname, Creating, IsSpace;
    MadeNew("one");
    var db, req := Opened(), Asking("e", "one", "k1");
    CreatesFirst(db, req, 1, "r1", "p", "c", Sample(HOST), Made("one"));
    assert db.cells["c" := CELL.(used := CELL.used + 1)] == One().cells;
    assert db.envs["e" := Unplaced("prod").(placement := Some("p"))] == One().envs;
    assert RequestKey(req.tenant, CreateScope, req.key) == FIRST && OfCreate(req.application, req.env, req.artifact, Sample(HOST)) == Asked("one");
  }

  lemma MakesTwo()
    ensures Creating(One(), Asking("e", "two", "k2"), 1, "r2", "p") == Ok(Accepted(Two(), "r2"))
  {
    hide NewRelease, ReleaseIdentity, Clean, Hostname, Creating, IsSpace;
    MadeNew("two");
    var db, req := One(), Asking("e", "two", "k2");
    CreatesNext(db, req, 1, "r2", "p", "p", Sample(HOST), Made("two"));
    var fingerprint := OfCreate(req.application, req.env, req.artifact, Sample(HOST));
    assert RequestKey(req.tenant, CreateScope, req.key) == SECOND && fingerprint == Asked("two");
    assert db.releases["r2" := Made("two")] == Two().releases;
    assert db.requests[SECOND := Remembered(fingerprint, "r2")] == Two().requests;
  }

  // ---------------------------------------------------------------- reaching them

  lemma {:induction false} RunJoins(w: World, a: seq<Command>, b: seq<Command>)
    ensures Run(w, a + b) == Run(Run(w, a), b)
    decreases |a|
  {
    hide Step;
    if a == [] {
      assert a + b == b;
    } else {
      assert (a + b)[0] == a[0] && (a + b)[1..] == a[1..] + b;
      RunJoins(Step(w, a[0]), a[1..], b);
    }
  }

  lemma ReachesStep(w: World, c: Command)
    requires Reachable(w)
    ensures Reachable(Step(w, c))
  {
    hide Step;
    var catalog, commands :| w == Run(Start(catalog), commands);
    RunJoins(Start(catalog), commands, [c]);
    assert Run(w, [c]) == Step(w, c) by {
      assert [c][1..] == [];
    }
    assert Step(w, c) == Run(Start(catalog), commands + [c]);
  }

  lemma ReachesStart(catalog: map<string, int>)
    ensures Reachable(Start(catalog))
  {
    assert Run(Start(catalog), []) == Start(catalog);
  }

  function Base(): World {
    World(Two(), map[], {}, {}, {})
  }

  lemma OpensTwo()
    ensures var w := Step(Start(CATALOG), RegisterCell("c", CELL));
            Step(Step(w, OpenEnvironment("e", "t", "a", "prod")), OpenEnvironment("d", "t", "a", "dev")) == World(Opened(), map[], {}, {}, {})
  {
    var w := Step(Start(CATALOG), RegisterCell("c", CELL));
    var e := Step(w, OpenEnvironment("e", "t", "a", "prod"));
    assert e.db.envs == map["e" := Unplaced("prod")];
    var d := Step(e, OpenEnvironment("d", "t", "a", "dev"));
    assert d.db.envs == map["e" := Unplaced("prod"), "d" := Unplaced("dev")];
  }

  lemma BaseReachable()
    ensures Reachable(Base())
  {
    hide Reachable, Step, Clean, Hostname, Creating, Admit;
    var w := Start(CATALOG);
    ReachesStart(CATALOG);
    OpensTwo();
    ReachesStep(w, RegisterCell("c", CELL));
    ReachesStep(Step(w, RegisterCell("c", CELL)), OpenEnvironment("e", "t", "a", "prod"));
    ReachesStep(Step(Step(w, RegisterCell("c", CELL)), OpenEnvironment("e", "t", "a", "prod")), OpenEnvironment("d", "t", "a", "dev"));
    var empty := World(Opened(), map[], {}, {}, {});
    MakesOne();
    ReleasesStep(empty, "one", "k1", "r1", One());
    MakesTwo();
    ReleasesStep(World(One(), map[], {}, {}, {}), "two", "k2", "r2", Two());
  }

  lemma ReleasesStep(w: World, artifact: string, key: string, id: Id, db: DB)
    requires Reachable(w) && w.db.catalog == CATALOG
    requires Creating(w.db, Asking("e", artifact, key), 1, id, "p") == Ok(Accepted(db, id))
    ensures Reachable(w.(db := db))
  {
    hide Reachable, Clean, Creating, Admit;
    AdmitsSample("e", artifact, key);
    var c := CreateRelease(Asking("e", artifact, key), true, id, "p");
    ReachesStep(w, c);
    assert Step(w, c) == w.(db := db);
  }

  // ---------------------------------------------------------------- one worker's steps

  const SHA := "0123456789"

  lemma ShaValid()
    ensures ValidSha(SHA)
  {}

  /** What a first preparation renders. */
  ghost function Draft(db: DB, r: Id): Manifest
    requires r in db.releases && db.releases[r].env in db.envs && Current(db.placements, db.releases[r].env).Some?
  {
    var env := db.releases[r].env;
    Manifest(r, db.envs[env].active, db.placements[Current(db.placements, env).value].cell)
  }

  ghost predicate Deployable(w: World, r: Id) {
    && Reachable(w) && r in w.db.releases && w.db.releases[r].state.Validated? && r !in w.db.deployments && r !in w.git
    && w.db.releases[r].env in w.db.envs && Current(w.db.placements, w.db.releases[r].env).Some?
    && w.db.placements[Current(w.db.placements, w.db.releases[r].env).value].cell in w.db.cells
  }

  ghost function AfterPrepare(w: World, r: Id): World
    requires Deployable(w, r)
  {
    var env := w.db.releases[r].env;
    var d := Deployment(Current(w.db.placements, env).value, w.db.envs[env].active, Pending, "");
    w.(db := w.db.(deployments := w.db.deployments[r := d]), manifests := w.manifests + {Draft(w.db, r)})
  }

  lemma Prepares(w: World, r: Id)
    requires Deployable(w, r)
    ensures Reachable(AfterPrepare(w, r)) && Step(w, Prepare(r)) == AfterPrepare(w, r)
  {
    hide Reachable;
    ReachesStep(w, Prepare(r));
  }

  ghost function AfterPush(w: World, r: Id): World
    requires Deployable(w, r)
  {
    var c := GitCommit(Draft(w.db, r).cell, Draft(w.db, r), SHA);
    AfterPrepare(w, r).(git := w.git[r := c], acks := w.acks + {Ack(r, c)})
  }

  lemma Pushes(w: World, r: Id)
    requires Deployable(w, r)
    ensures Reachable(AfterPush(w, r)) && Step(AfterPrepare(w, r), Push(Draft(w.db, r), SHA)) == AfterPush(w, r)
  {
    hide Reachable;
    Prepares(w, r);
    ReachesStep(AfterPrepare(w, r), Push(Draft(w.db, r), SHA));
  }

  ghost function AfterRecord(w: World, r: Id): World
    requires Deployable(w, r)
  {
    var v := AfterPush(w, r);
    v.(db := v.db.(
      commits := v.db.commits[r := v.git[r]],
      deployments := v.db.deployments[r := v.db.deployments[r].(phase := GitCommitted, sha := SHA)],
      releases := v.db.releases[r := v.db.releases[r].(state := CommittedToGitOps)]))
  }

  lemma Records(w: World, r: Id)
    requires Deployable(w, r)
    ensures Reachable(AfterRecord(w, r))
  {
    var v := AfterPush(w, r);
    hide Reachable, Safe, Inv, Deployable, ValidSha, Recording, AfterPush;
    Pushes(w, r);
    ReachableSafe(v);
    NotRecorded(w, r);
    RecordPending(v, r);
    ShaValid();
    ReachesStep(v, Record(Ack(r, v.git[r])));
    Acknowledges(w, r);
  }

  lemma Acknowledges(w: World, r: Id)
    requires Deployable(w, r)
    ensures var v := AfterPush(w, r); r in v.git && v.git[r].sha == SHA && Ack(r, v.git[r]) in v.acks
  {
    hide Reachable;
  }

  lemma NotRecorded(w: World, r: Id)
    requires Deployable(w, r)
    ensures r !in AfterPush(w, r).db.commits && r in AfterPush(w, r).git
  {
    ReachableSafe(w);
    hide Reachable, Inv;
  }

  ghost function AfterReady(w: World, r: Id): World
    requires Deployable(w, r)
  {
    var v := AfterRecord(w, r);
    var env := v.db.releases[r].env;
    v.(db := v.db.(
      deployments := v.db.deployments[r := v.db.deployments[r].(phase := Ready)],
      releases := Superseding(v.db.releases, env, r)[r := v.db.releases[r].(state := Active)],
      envs := v.db.envs[env := v.db.envs[env].(active := Some(r))]))
  }

  /** A release is prepared, pushed, recorded and reported ready. */
  lemma Activates(w: World, r: Id)
    requires Deployable(w, r)
    ensures Reachable(AfterReady(w, r))
  {
    hide Reachable, Superseding;
    Records(w, r);
    ReachesStep(AfterRecord(w, r), Observe(r, ReportReady(r, true)));
  }

  /** Whatever one release went through, another one of its environment can still be deployed. */
  lemma OtherDeployable(w: World, r: Id, q: Id)
    requires Deployable(w, r) && Deployable(w, q) && r != q
    ensures Deployable(AfterPrepare(w, r), q) && Deployable(AfterPush(w, r), q) && Deployable(AfterReady(w, r), q)
  {
    hide Reachable, ValidSha;
    Prepares(w, r);
    Pushes(w, r);
    Activates(w, r);
  }

  // ---------------------------------------------------------------- the properties that fail

  /** Two releases of one environment without an active release. */
  ghost predicate Rivals(w: World, r: Id, q: Id) {
    && Deployable(w, r) && Deployable(w, q) && r != q && w.db.releases[r].env == w.db.releases[q].env
    && w.db.envs[w.db.releases[r].env].active.None?
  }

  /** The manifest of r is pushed and not recorded while q becomes active. */
  lemma PushOvertaken(w: World, r: Id, q: Id)
    requires Rivals(w, r, q)
    ensures Deployable(AfterPush(w, r), q)
    ensures var v := AfterReady(AfterPush(w, r), q);
            && Reachable(v) && r in v.git && r !in v.db.commits && r in v.db.releases && v.db.releases[r].env in v.db.envs
            && v.db.envs[v.db.releases[r].env].active != v.git[r].manifest.active
  {
    OtherDeployable(w, r, q);
    NotRecorded(w, r);
    hide Reachable, ValidSha;
    Activates(AfterPush(w, r), q);
  }

  /** The deployment of r is prepared, and q becomes active before anything is pushed for r. */
  lemma PrepareOvertaken(w: World, r: Id, q: Id)
    requires Rivals(w, r, q)
    ensures Deployable(AfterPrepare(w, r), q)
    ensures var v := AfterReady(AfterPrepare(w, r), q);
            && Reachable(v) && r in v.db.deployments && v.db.deployments[r].phase.Pending? && r !in v.git
            && r in v.db.releases && v.db.releases[r].env in v.db.envs
            && v.db.envs[v.db.releases[r].env].active != v.db.deployments[r].previous
  {
    OtherDeployable(w, r, q);
    hide Reachable, ValidSha;
    Activates(AfterPrepare(w, r), q);
  }

  /** Activating one release after another supersedes the first. */
  lemma Supersedes(w: World, r: Id, q: Id)
    requires Rivals(w, r, q)
    ensures Deployable(AfterReady(w, r), q)
    ensures var v := AfterReady(AfterReady(w, r), q);
            && Reachable(v) && r in v.db.releases && v.db.releases[r].state.Superseded? && v.db.releases[r].env in v.db.envs
            && r in v.db.deployments && v.db.deployments[r].phase.Ready?
  {
    OtherDeployable(w, r, q);
    hide Reachable, Deployable, ValidSha;
    Activates(AfterReady(w, r), q);
  }

  lemma BaseRivals()
    ensures Rivals(Base(), "r1", "r2") && Deployable(Base(), "r1")
  {
    BaseReachable();
    hide Reachable, Clean;
    assert "p" in Two().placements;
    assert Current(Two().placements, "e") == Some("p");
  }

  // ---------------------------------------------------------------- the properties that fail

  /** The manifest of one release is pushed and not recorded while another becomes active: deploying the first again never
      converges. */
  lemma RetryDiverges() returns (w: World, r: Id)
    ensures Reachable(w) && r in w.git && r !in w.db.commits
    ensures r in w.db.releases && Preparing(w.db, r).Ok? && Preparing(w.db, r).value.1.Some?
    ensures forall sha :: Pushing(w.git, Preparing(w.db, r).value.1.value, sha) == Err(Conflict)
  {
    hide Reachable, Rivals, AfterPush, AfterReady, Safe, Preparing;
    BaseRivals();
    r := "r1";
    PushOvertaken(Base(), r, "r2");
    w := AfterReady(AfterPush(Base(), r), "r2");
    ReachableSafe(w);
    RetryConverges(w, r, "");
    forall sha ensures Pushing(w.git, Preparing(w.db, r).value.1.value, sha) == Err(Conflict) {
      RetryConverges(w, r, sha);
    }
  }

  /** The deployment of one release is prepared, and another becomes active before the first is ever pushed: whatever is pushed
      then, the observer rejects it at every later time. */
  lemma OvertakenForever() returns (w: World, r: Id)
    ensures Reachable(w) && r in w.db.deployments && w.db.deployments[r].phase.Pending? && r !in w.git
    ensures r in w.db.releases && Preparing(w.db, r).Ok? && Preparing(w.db, r).value.1.Some?
    ensures forall sha, commands :: var v := Run(Stopped(w, r, sha), commands); r in v.git && !SpecAccepted(v.db, v.git[r].manifest)
  {
    hide Reachable, Rivals, AfterPrepare, AfterReady, Safe, Stopped, Run, SpecAccepted, Preparing;
    BaseRivals();
    r := "r1";
    PrepareOvertaken(Base(), r, "r2");
    w := AfterReady(AfterPrepare(Base(), r), "r2");
    ReachableSafe(w);
    OvertakenRetry(w, r, "", []);
    forall sha, commands ensures var v := Run(Stopped(w, r, sha), commands); r in v.git && !SpecAccepted(v.db, v.git[r].manifest) {
      OvertakenRetry(w, r, sha, commands);
    }
  }

  /** A superseded release is reported ready once more: the environment names it, and no release is active. */
  lemma SupersededReady() returns (w: World, r: Id)
    ensures Reachable(w) && Observing(w.db, r, ReportReady(r, true)).Ok?
    ensures var s := Observing(w.db, r, ReportReady(r, true)).value;
            && r in s.releases && s.releases[r].env in s.envs && s.envs[s.releases[r].env].active == Some(r)
            && forall i | i in s.releases && s.releases[i].env == s.releases[r].env :: !s.releases[i].state.Active?
  {
    hide Reachable, Rivals, AfterReady, Safe, Inv;
    BaseRivals();
    r := "r1";
    Supersedes(Base(), r, "r2");
    w := AfterReady(AfterReady(Base(), r), "r2");
    ReachableSafe(w);
    Unpack(w);
    ReadyActivates(w.db, r, ReportReady(r, true));
  }

  /** The key of the first release is reused for the environment that has no placement. */
  lemma ReusedKeyInternal() returns (w: World, req: Request)
    ensures Reachable(w) && Replay(w.db, req) == Err(Internal)
  {
    hide Reachable, Clean, Safe, Inv;
    BaseReachable();
    w, req := Base(), Asking("d", "one", "k1");
    ReachableSafe(w);
    Unpack(w);
    ReplayInternalExactly(w.db, req);
  }
}
