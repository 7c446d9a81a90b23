/** The usage ledger: an append-only map of usage events, deduplicated by idempotency key, and the
    reconciliation that corrects a window of it to an observed quantity. A fingerprint is modelled as the
    value it is computed from. */
module Ledger {
  import opened Int64
  import Sums

  type Id = string

  datatype Kind = Standard | Credit | Correction

  datatype Reconcile = Reconcile(
    tenant: Id, period: Id, resourceType: string, resourceId: string, meter: string,
    windowStart: int, windowEnd: int, observed: int)

  datatype Key = Plain(key: string) | Reconciliation(cmd: Reconcile)

  /** A usage event; period "" asks for the open period that contains it. */
  datatype Event = Event(
    tenant: Id, period: Id, resourceType: string, resourceId: string, meter: string, kind: Kind,
    quantity: int, key: Key, occurredAt: int, windowStart: int, windowEnd: int, metadata: map<string, string>)

  datatype Period = Period(tenant: Id, start: int, end: int, open: bool) {
    predicate Contains(at: int) {
      start <= at < end
    }

    predicate AcceptsUsage(windowStart: int, windowEnd: int) {
      open && start <= windowStart && windowEnd <= end && windowStart < windowEnd
    }

    predicate Takes(e: Event) {
      AcceptsUsage(e.windowStart, e.windowEnd) && Contains(e.occurredAt)
    }
  }

  /** The meters a plan can price. */
  const CATALOG: set<string> := {
    "runtime.unit_seconds", "runtime.extra_replica_seconds", "build.cpu_seconds", "build.memory_gib_seconds",
    "build.docker_vm_seconds", "artifact.storage_gib_hours", "persistent.storage_gib_hours", "database.plan_seconds",
    "object_storage.gib_hours", "egress.bytes", "logs.ingested_bytes", "logs.retained_gib_hours"}

  type Slot = (Id, Key)

  datatype State = State(periods: map<Id, Period>, usage: map<Slot, Event>, idempotency: map<Slot, Event>)

  datatype Code = InvalidArgument | NotFound | PermissionDenied | Conflict | Overflow

  datatype Result = Ok(drift: int) | Failed(code: Code)

  /** Ledger entries and idempotency records correspond one to one, and a tenant's periods do not overlap. */
  ghost predicate Inv(s: State) {
    && s.usage == s.idempotency
    && (forall k | k in s.usage :: k == (s.usage[k].tenant, s.usage[k].key) && Fits(s.usage[k].quantity))
    && (forall k | k in s.usage && s.usage[k].kind == Standard :: s.usage[k].quantity >= 0)
    && (forall k | k in s.usage :: s.usage[k].period in s.periods && s.periods[s.usage[k].period].tenant == s.usage[k].tenant)
    && Disjoint(s.periods)
  }

  ghost predicate Disjoint(periods: map<Id, Period>) {
    && (forall p | p in periods :: p != "" && periods[p].start < periods[p].end)
    && (forall p, q, at | p in periods && q in periods && p != q && periods[p].tenant == periods[q].tenant ::
          !(periods[p].Contains(at) && periods[q].Contains(at)))
  }

  // ---------------------------------------------------------------- appending

  ghost predicate Home(s: State, e: Event, p: Id) {
    p in s.periods && s.periods[p].tenant == e.tenant && s.periods[p].Takes(e)
  }

  /** The event with its period filled in, if one can be. */
  ghost function Resolve(s: State, e: Event): Option<Event> {
    if e.period != "" then Some(e)
    else if p :| Home(s, e, p) then Some(e.(period := p))
    else None
  }

  ghost function AppendUsage(s: State, e0: Event): (State, Result) {
    match Resolve(s, e0)
    case None => (s, Failed(InvalidArgument))
    case Some(e) =>
      var slot := (e.tenant, e.key);
      if e.period !in s.periods then (s, Failed(NotFound))
      else if s.periods[e.period].tenant != e.tenant then (s, Failed(PermissionDenied))
      else if !s.periods[e.period].Takes(e) then (s, Failed(InvalidArgument))
      else if slot in s.idempotency then (s, if s.idempotency[slot] == e then Ok(0) else Failed(Conflict))
      else (s.(usage := s.usage[slot := e], idempotency := s.idempotency[slot := e]), Ok(0))
  }

  /** What normalisation requires of an event before the transaction starts. */
  predicate Acceptable(e: Event) {
    && e.tenant != "" && e.resourceType != "" && e.resourceId != "" && e.key != Plain("") && e.meter in CATALOG
    && (e.kind == Standard ==> e.quantity >= 0)
    && e.windowStart < e.windowEnd
    && Fits(e.quantity)
  }

  ghost function Append(s: State, e: Event, owned: bool): (State, Result) {
    if !Acceptable(e) then (s, Failed(InvalidArgument))
    else if !owned then (s, Failed(PermissionDenied))
    else AppendUsage(s, e)
  }

  // ---------------------------------------------------------------- reconciling

  predicate InWindow(e: Event, cmd: Reconcile) {
    && e.tenant == cmd.tenant && e.period == cmd.period
    && e.resourceType == cmd.resourceType && e.resourceId == cmd.resourceId && e.meter == cmd.meter
    && cmd.windowStart <= e.windowStart && e.windowEnd <= cmd.windowEnd
  }

  ghost function Counted(cmd: Reconcile): Event -> int {
    (e: Event) => if InWindow(e, cmd) then e.quantity else 0
  }

  ghost function LedgerSum(s: State, cmd: Reconcile): int {
    Sums.Sum(s.usage, Counted(cmd))
  }

  function CorrectionFor(cmd: Reconcile, drift: int): Event {
    Event(cmd.tenant, cmd.period, cmd.resourceType, cmd.resourceId, cmd.meter, Correction, drift, Reconciliation(cmd),
      cmd.windowEnd, cmd.windowStart, cmd.windowEnd, map["source" := "allocation_reconciler"])
  }

  predicate ValidCommand(cmd: Reconcile) {
    cmd.tenant != "" && cmd.period != "" && cmd.resourceType != "" && cmd.resourceId != "" && cmd.windowStart < cmd.windowEnd
    && cmd.meter in CATALOG && Fits(cmd.observed)
  }

  ghost function ReconcileUsage(s: State, cmd: Reconcile, owned: bool): (State, Result) {
    if !ValidCommand(cmd) then (s, Failed(InvalidArgument))
    else if !owned then (s, Failed(PermissionDenied))
    else
      var drift := cmd.observed - LedgerSum(s, cmd);
      if !Fits(LedgerSum(s, cmd)) || !Fits(drift) then (s, Failed(Overflow))
      else if drift == 0 then (s, Ok(0))
      else
        var (s', r) := AppendUsage(s, CorrectionFor(cmd, drift));
        (s', if r.Ok? then Ok(drift) else r)
  }

  // ---------------------------------------------------------------- runs

  datatype Command =
    | OpenPeriod(id: Id, period: Period)
    | ClosePeriod(id: Id)
    | AppendEvent(event: Event, owned: bool)
    | ReconcileWindow(cmd: Reconcile, owned: bool)

  ghost function Step(s: State, c: Command): State {
    match c
    case OpenPeriod(id, period) =>
      var periods := s.periods[id := period];
      if id in s.periods || !Disjoint(periods) then s else s.(periods := periods)
    case ClosePeriod(id) =>
      if id in s.periods then s.(periods := s.periods[id := s.periods[id].(open := false)]) else s
    case AppendEvent(e, owned) => Append(s, e, owned).0
    case ReconcileWindow(cmd, owned) => ReconcileUsage(s, cmd, owned).0
  }

  ghost function Run(s: State, commands: seq<Command>): State
    decreases |commands|
  {
    if commands == [] then s else Run(Step(s, commands[0]), commands[1..])
  }

  lemma AppendUsageKeepsInv(s: State, e: Event)
    requires Inv(s) && Fits(e.quantity) && (e.kind == Standard ==> e.quantity >= 0)
    ensures Inv(AppendUsage(s, e).0)
  {}

  lemma StepKeepsInv(s: State, c: Command)
    requires Inv(s)
    ensures Inv(Step(s, c))
  {
    hide Inv;
    match c
    case AppendEvent(e, owned) =>
      if Acceptable(e) {
        AppendUsageKeepsInv(s, e);
      }
    case ReconcileWindow(cmd, owned) =>
      var drift := cmd.observed - LedgerSum(s, cmd);
      if Fits(drift) {
        AppendUsageKeepsInv(s, CorrectionFor(cmd, drift));
      }
    case _ =>
      OtherKeepsInv(s, c);
  }

  lemma OtherKeepsInv(s: State, c: Command)
    requires Inv(s) && !c.AppendEvent? && !c.ReconcileWindow?
    ensures Inv(Step(s, c))
  {}

  /** The ledger only grows, and an entry never changes. */
  lemma StepAppendsOnly(s: State, c: Command)
    requires Inv(s)
    ensures forall k | k in s.usage :: k in Step(s, c).usage && Step(s, c).usage[k] == s.usage[k]
  {}

  /** Over every run ledger and idempotency records stay in step and recorded events stay as they are. */
  lemma {:induction false} RunAppendsOnly(s: State, commands: seq<Command>)
    requires Inv(s)
    ensures Inv(Run(s, commands))
    ensures forall k | k in s.usage :: k in Run(s, commands).usage && Run(s, commands).usage[k] == s.usage[k]
    decreases |commands|
  {
    if commands != [] {
      StepKeepsInv(s, commands[0]);
      StepAppendsOnly(s, commands[0]);
      RunAppendsOnly(Step(s, commands[0]), commands[1..]);
    }
  }

  /** A successful append leaves its resolved event on record. */
  lemma AppendRecords(s: State, e: Event, owned: bool)
    requires Inv(s) && Append(s, e, owned).1.Ok?
    ensures Resolve(s, e).Some? && Inv(Append(s, e, owned).0) && Acceptable(e)
    ensures var (s1, recorded) := (Append(s, e, owned).0, Resolve(s, e).value);
      && (e.tenant, e.key) in s1.usage && s1.usage[(e.tenant, e.key)] == recorded && recorded == e.(period := recorded.period)
  {
    AppendUsageKeepsInv(s, e);
  }

  /** A used key takes nothing more. */
  lemma UsedKey(s: State, again: Event)
    requires Inv(s) && (again.tenant, again.key) in s.usage
    ensures var recorded := s.usage[(again.tenant, again.key)];
      && recorded.period in s.periods && AppendUsage(s, again).0 == s
      && (AppendUsage(s, again).1.Ok? <==> Resolve(s, again) == Some(recorded) && s.periods[recorded.period].Takes(recorded))
  {}

  /** The recorded event without its period finds it again, while that still takes the event. */
  lemma FoundAgain(s: State, recorded: Event)
    requires Inv(s) && (recorded.tenant, recorded.key) in s.usage && s.usage[(recorded.tenant, recorded.key)] == recorded
    requires s.periods[recorded.period].Takes(recorded)
    ensures Resolve(s, recorded.(period := "")) == Some(recorded)
  {
    var e := recorded.(period := "");
    assert Home(s, e, recorded.period);
    HomeUnique(s, e, recorded.period);
  }

  /** Appending under a used key, at any later point of any run, changes nothing. It is acknowledged exactly for the recorded
      event, whether its period is given or found again, in a period that still takes it. */
  lemma ReappendChangesNothing(s: State, e: Event, owned: bool, commands: seq<Command>, again: Event)
    requires Inv(s) && Append(s, e, owned).1.Ok?
    requires again.tenant == e.tenant && again.key == e.key
    ensures Resolve(s, e).Some?
    ensures var (later, recorded) := (Run(Append(s, e, owned).0, commands), Resolve(s, e).value);
      && recorded.period in later.periods && Append(later, again, true).0 == later
      && (Append(later, again, true).1.Ok? <==> Resolve(later, again) == Some(recorded) && later.periods[recorded.period].Takes(recorded))
      && (again == e ==> (Append(later, again, true).1.Ok? <==> later.periods[recorded.period].Takes(recorded)))
  {
    hide Inv, Run, AppendUsage;
    AppendRecords(s, e, owned);
    var s1, recorded := Append(s, e, owned).0, Resolve(s, e).value;
    RunAppendsOnly(s1, commands);
    var later := Run(s1, commands);
    UsedKey(later, again);
    if later.periods[recorded.period].Takes(recorded) {
      FoundAgain(later, recorded);
    }
  }

  // ---------------------------------------------------------------- what appending answers, written out

  /** An open period of the tenant around both the usage window and the moment of use, whose end is no longer in it. */
  predicate Holds(p: Period, e: Event) {
    && p.tenant == e.tenant && p.open && p.start <= e.windowStart < e.windowEnd <= p.end && p.start <= e.occurredAt < p.end
  }

  /** An event is recorded exactly if it names a period that holds it, or one holds it, and its key is new; the event on
      record is acknowledged again, and everything else is refused with the reason. */
  lemma AppendsExactly(s: State, e: Event, p: Id)
    requires Inv(s)
    ensures var out := AppendUsage(s, e);
      && (e.period != "" ==>
            var slot := (e.tenant, e.key);
            out ==
            if e.period !in s.periods then (s, Failed(NotFound))
            else if s.periods[e.period].tenant != e.tenant then (s, Failed(PermissionDenied))
            else if !Holds(s.periods[e.period], e) then (s, Failed(InvalidArgument))
            else if slot in s.usage then (s, if s.usage[slot] == e then Ok(0) else Failed(Conflict))
            else (State(s.periods, s.usage[slot := e], s.idempotency[slot := e]), Ok(0)))
      && (e.period == "" && p in s.periods && Holds(s.periods[p], e) ==> out == AppendUsage(s, e.(period := p)))
      && (e.period == "" && (forall q | q in s.periods :: !Holds(s.periods[q], e)) ==> out == (s, Failed(InvalidArgument)))
  {
    if e.period == "" {
      forall q | q in s.periods ensures Holds(s.periods[q], e) <==> Home(s, e, q) {}
      if p in s.periods && Holds(s.periods[p], e) {
        assert Home(s, e, p);
        HomeUnique(s, e, p);
        assert Resolve(s, e) == Some(e.(period := p));
        assert p != "";
      }
    }
  }

  /** Before that, an event must be complete, of a known meter, owned, over a window of positive length, and positive if it is
      standard usage. */
  lemma AdmitsExactly(s: State, e: Event, owned: bool)
    ensures Append(s, e, owned) ==
      if e.tenant == "" || e.resourceType == "" || e.resourceId == "" || e.key == Plain("") || e.meter !in CATALOG
         || (e.kind == Standard && e.quantity < 0) || e.windowStart >= e.windowEnd || !Fits(e.quantity)
      then (s, Failed(InvalidArgument))
      else if !owned then (s, Failed(PermissionDenied))
      else AppendUsage(s, e)
  {}

  /** A recorded event counts towards a window exactly if it is of the same tenant, period, resource and meter and its own
      window lies within, the bounds included. */
  lemma CountsTowards(s: State, e: Event, cmd: Reconcile)
    requires (e.tenant, e.key) !in s.usage
    ensures LedgerSum(s.(usage := s.usage[(e.tenant, e.key) := e]), cmd) == LedgerSum(s, cmd) +
      if e.tenant == cmd.tenant && e.period == cmd.period && e.resourceType == cmd.resourceType && e.resourceId == cmd.resourceId
         && e.meter == cmd.meter && e.windowStart >= cmd.windowStart && e.windowEnd <= cmd.windowEnd
      then e.quantity else 0
  {
    Sums.Update(s.usage, (e.tenant, e.key), e, Counted(cmd));
  }

  /** A reconciliation that is complete, owned and in range appends nothing without drift, and otherwise one correction of
      exactly the drift, at the window's end, under the command's own key. */
  lemma ReconcilesExactly(s: State, cmd: Reconcile, owned: bool)
    requires Inv(s)
    ensures var drift := cmd.observed - LedgerSum(s, cmd);
      var correction := Event(cmd.tenant, cmd.period, cmd.resourceType, cmd.resourceId, cmd.meter, Correction, drift,
        Reconciliation(cmd), cmd.windowEnd, cmd.windowStart, cmd.windowEnd, map["source" := "allocation_reconciler"]);
      var appended := AppendUsage(s, correction);
      ReconcileUsage(s, cmd, owned) ==
      if cmd.tenant == "" || cmd.period == "" || cmd.resourceType == "" || cmd.resourceId == "" || cmd.meter !in CATALOG
         || cmd.windowStart >= cmd.windowEnd || !Fits(cmd.observed)
      then (s, Failed(InvalidArgument))
      else if !owned then (s, Failed(PermissionDenied))
      else if !Fits(LedgerSum(s, cmd)) || !Fits(drift) then (s, Failed(Overflow))
      else if drift == 0 then (s, Ok(0))
      else if appended.1.Ok? then (appended.0, Ok(drift)) else (s, appended.1)
  {}

  // ---------------------------------------------------------------- what reconciling achieves

  lemma CorrectionSettles(s: State, cmd: Reconcile, drift: int)
    requires (cmd.tenant, Reconciliation(cmd)) !in s.usage
    ensures var e := CorrectionFor(cmd, drift);
      Sums.Sum(s.usage[(cmd.tenant, Reconciliation(cmd)) := e], Counted(cmd)) == LedgerSum(s, cmd) + drift
  {
    Sums.Update(s.usage, (cmd.tenant, Reconciliation(cmd)), CorrectionFor(cmd, drift), Counted(cmd));
  }

  /** A successful reconciliation leaves the window at the observed quantity exactly when there was nothing to
      correct or the command had not been used before; a reused command is acknowledged without correcting. */
  lemma ReconcileReachesObserved(s: State, cmd: Reconcile, owned: bool)
    requires Inv(s)
    ensures var (s', r) := ReconcileUsage(s, cmd, owned);
      r.Ok? ==> (LedgerSum(s', cmd) == cmd.observed <==> r.drift == 0 || (cmd.tenant, Reconciliation(cmd)) !in s.usage)
  {
    if (cmd.tenant, Reconciliation(cmd)) !in s.usage {
      CorrectionSettles(s, cmd, cmd.observed - LedgerSum(s, cmd));
    }
  }

  /** After a first-time success the same command finds no drift. */
  lemma RepeatFindsNoDrift(s: State, cmd: Reconcile, owned: bool)
    requires Inv(s) && (cmd.tenant, Reconciliation(cmd)) !in s.usage
    requires ReconcileUsage(s, cmd, owned).1.Ok?
    ensures ReconcileUsage(ReconcileUsage(s, cmd, owned).0, cmd, owned) == (ReconcileUsage(s, cmd, owned).0, Ok(0))
  {
    ReconcileReachesObserved(s, cmd, owned);
  }

  /** A first-time correction is accepted exactly when the tenant's open period holds the window and also lasts
      beyond it: the correction occurs at the window's end, and a period does not contain its own end. */
  lemma CorrectionAccepted(s: State, cmd: Reconcile)
    requires Inv(s) && ValidCommand(cmd) && (cmd.tenant, Reconciliation(cmd)) !in s.usage
    requires Fits(LedgerSum(s, cmd)) && Fits(cmd.observed - LedgerSum(s, cmd)) && cmd.observed != LedgerSum(s, cmd)
    ensures ReconcileUsage(s, cmd, true).1.Ok? <==>
      (&& cmd.period in s.periods && s.periods[cmd.period].tenant == cmd.tenant && s.periods[cmd.period].open
       && s.periods[cmd.period].start <= cmd.windowStart && cmd.windowEnd < s.periods[cmd.period].end)
  {}

  /** Hence drift in a window that runs to the end of its period cannot be corrected. */
  lemma PeriodEndCannotBeReconciled(s: State, cmd: Reconcile)
    requires Inv(s) && ValidCommand(cmd) && (cmd.tenant, Reconciliation(cmd)) !in s.usage
    requires Fits(LedgerSum(s, cmd)) && Fits(cmd.observed - LedgerSum(s, cmd)) && cmd.observed != LedgerSum(s, cmd)
    requires cmd.period in s.periods && s.periods[cmd.period].tenant == cmd.tenant
    requires cmd.windowEnd == s.periods[cmd.period].end
    ensures ReconcileUsage(s, cmd, true) == (s, Failed(InvalidArgument))
  {
    CorrectionAccepted(s, cmd);
  }

  function Empty(): State {
    State(map[], map[], map[])
  }

  /** It happens: a period is opened, nothing is recorded, and its second half was observed to have used something. */
  lemma LastWindowDrifts() returns (commands: seq<Command>, cmd: Reconcile)
    ensures var s := Run(Empty(), commands);
      && cmd.period in s.periods && s.periods[cmd.period].AcceptsUsage(cmd.windowStart, cmd.windowEnd)
      && ValidCommand(cmd) && LedgerSum(s, cmd) != cmd.observed
      && ReconcileUsage(s, cmd, true) == (s, Failed(InvalidArgument))
  {
    var open := OpenPeriod("p", Period("t", 0, 100, true));
    commands, cmd := [open], Reconcile("t", "p", "app", "x", "egress.bytes", 50, 100, 5);
    var s := Run(Empty(), commands);
    assert commands[1..] == [];
    assert Run(Step(Empty(), open), []) == Step(Empty(), open);
    assert Step(Empty(), open).periods == map["p" := Period("t", 0, 100, true)] by {
      assert Disjoint(map["p" := Period("t", 0, 100, true)]);
    }
    assert s.periods == map["p" := Period("t", 0, 100, true)] && s.usage == map[];
    PeriodEndCannotBeReconciled(s, cmd);
  }

  // ---------------------------------------------------------------- the service

  class Store {
    var periods: map<Id, Period>
    var usage: map<Slot, Event>
    var idempotency: map<Slot, Event>

    ghost function Snapshot(): State
      reads this
    {
      State(periods, usage, idempotency)
    }

    method FindPeriod(e: Event) returns (found: Option<Id>)
      ensures found.Some? ==> Home(Snapshot(), e, found.value)
      ensures found.None? ==> forall p :: !Home(Snapshot(), e, p)
    {
      var rest := periods.Keys;
      while rest != {}
        invariant rest <= periods.Keys
        invariant forall p | p in periods && p !in rest :: !Home(Snapshot(), e, p)
        decreases |rest|
      {
        var p :| p in rest;
        if periods[p].tenant == e.tenant && periods[p].AcceptsUsage(e.windowStart, e.windowEnd) && periods[p].Contains(e.occurredAt) {
          return Some(p);
        }
        rest := rest - {p};
      }
      return None;
    }

    method AppendUsageTx(event: Event) returns (r: Result)
      requires Inv(Snapshot())
      modifies this`usage, this`idempotency
      ensures (Snapshot(), r) == AppendUsage(old(Snapshot()), event)
    {
      var e := event;
      if e.period == "" {
        var home := FindPeriod(e);
        if home.None? {
          return Failed(InvalidArgument);
        }
        HomeUnique(Snapshot(), e, home.value);
        e := e.(period := home.value);
      }
      assert Resolve(Snapshot(), event) == Some(e);
      if e.period !in periods {
        return Failed(NotFound);
      }
      var period := periods[e.period];
      if period.tenant != e.tenant {
        return Failed(PermissionDenied);
      }
      if !period.AcceptsUsage(e.windowStart, e.windowEnd) || !period.Contains(e.occurredAt) {
        return Failed(InvalidArgument);
      }
      var slot := (e.tenant, e.key);
      if slot in idempotency {
        if idempotency[slot] != e {
          return Failed(Conflict);
        }
        return Ok(0);
      }
      if slot in usage {
        return Failed(Conflict);
      }
      usage := usage[slot := e];
      idempotency := idempotency[slot := e];
      return Ok(0);
    }

    /** The window's ledger entries in whatever order the store lists them; None reports an intermediate overflow. */
    method SumWindow(cmd: Reconcile) returns (sum: Option<int>)
      requires Inv(Snapshot())
      ensures sum.Some? ==> Fits(sum.value) && sum.value == LedgerSum(Snapshot(), cmd)
      ensures sum.None? ==> Sums.Sum(usage, Magnitude(cmd)) > MAX
    {
      var total := 0;
      var rest := usage;
      ghost var seen := 0;
      while rest != map[]
        invariant forall k | k in rest :: Fits(rest[k].quantity)
        invariant Fits(total) && -seen <= total <= seen
        invariant LedgerSum(Snapshot(), cmd) == total + Sums.Sum(rest, Counted(cmd))
        invariant Sums.Sum(usage, Magnitude(cmd)) == seen + Sums.Sum(rest, Magnitude(cmd))
        decreases |rest|
      {
        var k :| k in rest;
        var e := rest[k];
        TakeOut(rest, k, cmd);
        rest := rest - {k};
        if InWindow(e, cmd) {
          seen := seen + if e.quantity < 0 then -e.quantity else e.quantity;
          var next := SafeAdd(total, e.quantity);
          if next.None? {
            return None;
          }
          total := next.value;
        }
      }
      return Some(total);
    }

    method Reconcile(cmd: Reconcile, owned: bool) returns (r: Result)
      requires Inv(Snapshot())
      modifies this`usage, this`idempotency
      ensures Inv(Snapshot())
      ensures r == Failed(Overflow) ==> Snapshot() == old(Snapshot())
      ensures r != Failed(Overflow) ==> (Snapshot(), r) == ReconcileUsage(old(Snapshot()), cmd, owned)
      ensures r == Failed(Overflow) ==>
        Sums.Sum(old(usage), Magnitude(cmd)) > MAX || !Fits(cmd.observed - LedgerSum(old(Snapshot()), cmd))
    {
      hide Inv;
      if !ValidCommand(cmd) {
        return Failed(InvalidArgument);
      }
      if !owned {
        return Failed(PermissionDenied);
      }
      var ledger := SumWindow(cmd);
      if ledger.None? {
        return Failed(Overflow);
      }
      var drift := SafeSub(cmd.observed, ledger.value);
      if drift.None? {
        return Failed(Overflow);
      }
      if drift.value == 0 {
        return Ok(0);
      }
      AppendUsageKeepsInv(Snapshot(), CorrectionFor(cmd, drift.value));
      r := AppendUsageTx(CorrectionFor(cmd, drift.value));
      if r.Ok? {
        r := Ok(drift.value);
      }
    }
  }

  ghost function Magnitude(cmd: Reconcile): Event -> int {
    (e: Event) => if InWindow(e, cmd) then (if e.quantity < 0 then -e.quantity else e.quantity) else 0
  }

  lemma TakeOut(m: map<Slot, Event>, k: Slot, cmd: Reconcile)
    requires k in m
    ensures Sums.Sum(m, Counted(cmd)) == Sums.Sum(m - {k}, Counted(cmd)) + if InWindow(m[k], cmd) then m[k].quantity else 0
    ensures Sums.Sum(m, Magnitude(cmd)) == Sums.Sum(m - {k}, Magnitude(cmd)) +
      if InWindow(m[k], cmd) then (if m[k].quantity < 0 then -m[k].quantity else m[k].quantity) else 0
    ensures Sums.Sum(m - {k}, Magnitude(cmd)) >= 0
  {
    Sums.Remove(m, k, Counted(cmd));
    Sums.Remove(m, k, Magnitude(cmd));
    Sums.NonNegative(m - {k}, Magnitude(cmd));
  }

  lemma HomeUnique(s: State, e: Event, p: Id)
    requires Inv(s) && Home(s, e, p)
    ensures forall q | Home(s, e, q) :: q == p
  {}
}
