/** Quota reservations against the limits of a tenant's plan: plan versions, subscriptions and
    commercial accounts decide the limit; reservations are granted, committed, released and expire. */
module Quota {
  import opened Int64
  import Sums

  type Id = string

  datatype PlanState = Draft | ActivePlan | Disabled

  datatype Plan = Plan(state: PlanState, policyVersion: string, features: set<string>, quotas: map<string, int>)

  datatype SubscriptionState = Trial | Subscribed | InGrace | Stopped

  datatype Subscription = Subscription(plan: Id, state: SubscriptionState, trialEndsAt: int) {
    predicate AllowsAllocation(at: int) {
      match state
      case Subscribed => true
      case InGrace => true
      case Trial => at < trialEndsAt
      case Stopped => false
    }
  }

  datatype AccountState = ActiveAccount | Grace | Suspended | Canceled

  datatype ReservationState = Reserved | Committed | Released

  datatype Request = Request(tenant: Id, resource: string, quantity: int, key: string, expiresAt: int, at: Option<int>)

  datatype Reservation = Reservation(
    tenant: Id, resource: string, quantity: int, state: ReservationState, key: string,
    fingerprint: Request, expiresAt: int)
  {
    predicate CountsAgainstLimit(now: int) {
      state == Committed || (state == Reserved && now < expiresAt)
    }
  }

  datatype State = State(
    plans: map<Id, Plan>, subscriptions: map<Id, Subscription>, accounts: map<Id, AccountState>,
    reservations: map<Id, Reservation>, now: int)

  datatype Code = InvalidArgument | NotFound | Unavailable | PermissionDenied | Conflict | QuotaExceeded

  datatype Outcome = Done | Granted(id: Id) | Replayed(id: Id) | Refused(code: Code)

  // ---------------------------------------------------------------- what counts

  /** Contribution of one reservation to a tenant's use of a resource at a time. */
  ghost function Weight(tenant: Id, resource: string, at: int): Reservation -> int {
    (q: Reservation) => if q.tenant == tenant && q.resource == resource && q.CountsAgainstLimit(at) then q.quantity else 0
  }

  ghost function Active(s: State, tenant: Id, resource: string, at: int): int {
    Sums.Sum(s.reservations, Weight(tenant, resource, at))
  }

  /** The plan's limit; nothing may be held where the plan defines no quota. */
  function Limit(s: State, tenant: Id, resource: string): int {
    if tenant in s.subscriptions && s.subscriptions[tenant].plan in s.plans
      && resource in s.plans[s.subscriptions[tenant].plan].quotas
    then s.plans[s.subscriptions[tenant].plan].quotas[resource]
    else 0
  }

  ghost predicate WellFormed(s: State) {
    && (forall p, r | p in s.plans && r in s.plans[p].quotas :: 0 <= s.plans[p].quotas[r] <= MAX)
    && (forall p | p in s.plans :: s.plans[p].policyVersion != "")
    && (forall t | t in s.subscriptions :: s.subscriptions[t].plan in s.plans && s.plans[s.subscriptions[t].plan].state != Draft)
    && (forall i | i in s.reservations :: 0 < s.reservations[i].quantity <= MAX)
    && (forall i, j | i in s.reservations && j in s.reservations && i != j ::
          s.reservations[i].tenant != s.reservations[j].tenant || s.reservations[i].key != s.reservations[j].key)
  }

  ghost predicate NotOversubscribed(s: State) {
    forall t, r :: Active(s, t, r, s.now) <= Limit(s, t, r)
  }

  ghost predicate Inv(s: State) {
    WellFormed(s) && NotOversubscribed(s)
  }

  // ---------------------------------------------------------------- commands

  function At(s: State, at: Option<int>): int {
    if at.Some? then at.value else s.now
  }

  ghost function Used(s: State, tenant: Id, resource: string, at: int): int {
    Min(Active(s, tenant, resource, at), MAX)
  }

  ghost predicate IsReplay(s: State, req: Request, i: Id) {
    i in s.reservations && s.reservations[i].tenant == req.tenant && s.reservations[i].key == req.key
  }

  /** Why a first-time reservation is turned down, checked in this order. */
  ghost function Refusal(s: State, req: Request, id: Id): Option<Code> {
    var at := At(s, req.at);
    if req.tenant !in s.subscriptions then Some(NotFound)
    else if req.tenant !in s.accounts then Some(Unavailable)
    else if !s.subscriptions[req.tenant].AllowsAllocation(at) || s.accounts[req.tenant] in {Suspended, Canceled} then Some(PermissionDenied)
    else if s.subscriptions[req.tenant].plan !in s.plans then Some(Unavailable)
    else
      var plan := s.plans[s.subscriptions[req.tenant].plan];
      if req.resource !in plan.quotas then Some(PermissionDenied)
      else if req.quantity > plan.quotas[req.resource] - Used(s, req.tenant, req.resource, at) then Some(QuotaExceeded)
      else if plan.policyVersion == "" then Some(InvalidArgument)
      else if id in s.reservations then Some(Conflict)
      else None
  }

  predicate Malformed(s: State, req: Request) {
    req.tenant == "" || req.resource == "" || req.key == "" || req.quantity <= 0 || req.expiresAt <= At(s, req.at)
  }

  function Fresh(req: Request): Reservation {
    Reservation(req.tenant, req.resource, req.quantity, Reserved, req.key, req, req.expiresAt)
  }

  ghost function Reserving(s: State, req: Request, id: Id): (State, Outcome) {
    if Malformed(s, req) then (s, Refused(InvalidArgument))
    else if i :| IsReplay(s, req, i) then
      (s, if s.reservations[i].fingerprint == req then Replayed(i) else Refused(Conflict))
    else
      match Refusal(s, req, id)
      case Some(code) => (s, Refused(code))
      case None => (s.(reservations := s.reservations[id := Fresh(req)]), Granted(id))
  }

  /** Commit needs an unexpired reservation; release also takes back a committed one; both are idempotent. */
  function Settle(s: State, id: Id, commit: bool): (State, Outcome) {
    if id !in s.reservations then (s, Refused(NotFound))
    else
      var q := s.reservations[id];
      if q.state == (if commit then Committed else Released) then (s, Done)
      else if commit && (q.state != Reserved || s.now >= q.expiresAt) then (s, Refused(Conflict))
      else (s.(reservations := s.reservations[id := q.(state := if commit then Committed else Released)]), Done)
  }

  datatype Entitlement = Entitlement(tenant: Id, feature: string, resource: string, quantity: int, at: Option<int>)

  datatype Decision = Allowed(limit: int, remaining: int) | Denied | Failed(code: Code)

  ghost function Checking(s: State, req: Entitlement): Decision {
    var at := At(s, req.at);
    if req.tenant == "" || req.feature == "" || req.quantity < 0 then Failed(InvalidArgument)
    else if req.tenant !in s.subscriptions then Failed(NotFound)
    else if s.subscriptions[req.tenant].plan !in s.plans || req.tenant !in s.accounts then Failed(Unavailable)
    else
      var plan := s.plans[s.subscriptions[req.tenant].plan];
      if s.accounts[req.tenant] in {Suspended, Canceled} || !s.subscriptions[req.tenant].AllowsAllocation(at) then Denied
      else if req.feature !in plan.features then Denied
      else if req.resource == "" then Allowed(0, 0)
      else if req.resource !in plan.quotas then Denied
      else
        var limit := plan.quotas[req.resource];
        var remaining := Max(0, limit - Used(s, req.tenant, req.resource, at));
        if req.quantity > remaining then Denied else Allowed(limit, remaining)
  }

  datatype Command =
    | InsertPlan(id: Id, policyVersion: string, features: set<string>, quotas: map<string, int>)
    | ActivatePlan(id: Id)
    | DisablePlan(id: Id)
    | ReplaceSpec(id: Id, features: set<string>, quotas: map<string, int>)
    | StartSubscription(tenant: Id, id: Id, state: SubscriptionState, trialEndsAt: int)
    | SetAccount(tenant: Id, to: AccountState)
    | ReserveQuota(req: Request, id: Id)
    | SettleQuota(id: Id, commit: bool)
    | Advance(delta: nat)

  predicate ValidQuotas(quotas: map<string, int>) {
    forall r | r in quotas :: r != "" && 0 <= quotas[r] <= MAX
  }

  /** Only a draft plan's specification can be replaced. */
  function StepPlan(s: State, c: Command): State
    requires c.InsertPlan? || c.ActivatePlan? || c.DisablePlan? || c.ReplaceSpec?
  {
    match c
    case InsertPlan(id, policy, features, quotas) =>
      if id in s.plans || policy == "" || !ValidQuotas(quotas) then s
      else s.(plans := s.plans[id := Plan(Draft, policy, features, quotas)])
    case ActivatePlan(id) =>
      if id in s.plans && s.plans[id].state == Draft then s.(plans := s.plans[id := s.plans[id].(state := ActivePlan)]) else s
    case DisablePlan(id) =>
      if id in s.plans then s.(plans := s.plans[id := s.plans[id].(state := Disabled)]) else s
    case ReplaceSpec(id, features, quotas) =>
      if id in s.plans && s.plans[id].state == Draft && ValidQuotas(quotas)
      then s.(plans := s.plans[id := s.plans[id].(features := features, quotas := quotas)]) else s
  }

  function AllowedAccount(from: AccountState, to: AccountState): bool {
    match from
    case ActiveAccount => to in {Grace, Suspended, Canceled}
    case Grace => to in {Suspended, ActiveAccount, Canceled}
    case Suspended => to in {ActiveAccount, Canceled}
    case Canceled => false
  }

  function Follow(sub: Subscription, to: AccountState): Subscription {
    match to
    case ActiveAccount => sub.(state := Subscribed)
    case Grace => sub.(state := InGrace)
    case Suspended => sub.(state := Stopped)
    case Canceled => sub
  }

  /** A tenant subscribes once, to an active plan; later commands move the account and the subscription together. */
  function StepSubscription(s: State, c: Command): State
    requires c.StartSubscription? || c.SetAccount?
  {
    match c
    case StartSubscription(tenant, id, state, ends) =>
      if tenant == "" || id !in s.plans || s.plans[id].state != ActivePlan || tenant in s.subscriptions || tenant in s.accounts then s
      else s.(subscriptions := s.subscriptions[tenant := Subscription(id, state, ends)], accounts := s.accounts[tenant := ActiveAccount])
    case SetAccount(tenant, to) =>
      if tenant !in s.accounts || !AllowedAccount(s.accounts[tenant], to) then s
      else
        s.(accounts := s.accounts[tenant := to],
           subscriptions := if tenant in s.subscriptions then s.subscriptions[tenant := Follow(s.subscriptions[tenant], to)] else s.subscriptions)
  }

  ghost function Step(s: State, c: Command): State {
    match c
    case ReserveQuota(req, id) => Reserving(s, req, id).0
    case SettleQuota(id, commit) => Settle(s, id, commit).0
    case Advance(delta) => s.(now := s.now + delta)
    case StartSubscription(_, _, _, _) => StepSubscription(s, c)
    case SetAccount(_, _) => StepSubscription(s, c)
    case _ => StepPlan(s, c)
  }

  ghost function Run(s: State, commands: seq<Command>): State
    decreases |commands|
  {
    if commands == [] then s else Run(Step(s, commands[0]), commands[1..])
  }

  /** The request's quantity fits beside what is held by the clock, whatever date the request bears. */
  ghost predicate FitsNow(s: State, req: Request) {
    Active(s, req.tenant, req.resource, s.now) + req.quantity <= Limit(s, req.tenant, req.resource)
  }

  /** Every reservation that is granted fits by the clock at which it is made. */
  ghost predicate Fitting(s: State, commands: seq<Command>)
    decreases |commands|
  {
    commands == [] ||
    (&& (commands[0].ReserveQuota? && Reserving(s, commands[0].req, commands[0].id).1.Granted? ==> FitsNow(s, commands[0].req))
     && Fitting(Step(s, commands[0]), commands[1..]))
  }

  /** Requests are dated, if at all, not after the clock. */
  ghost predicate Undated(s: State, commands: seq<Command>)
    decreases |commands|
  {
    commands == [] ||
    ((commands[0].ReserveQuota? ==> At(s, commands[0].req.at) <= s.now) && Undated(Step(s, commands[0]), commands[1..]))
  }

  /** Quantities are 64-bit numbers. */
  predicate Sized(commands: seq<Command>) {
    forall c | c in commands && c.ReserveQuota? :: c.req.quantity <= MAX
  }

  // ---------------------------------------------------------------- why it holds

  /** Reservations only stop counting as time passes. */
  lemma ActiveFades(s: State, tenant: Id, resource: string, t: int, u: int)
    requires WellFormed(s) && t <= u
    ensures 0 <= Active(s, tenant, resource, u) <= Active(s, tenant, resource, t)
  {
    Sums.NonNegative(s.reservations, Weight(tenant, resource, u));
    Sums.Bounded(s.reservations, Weight(tenant, resource, u), Weight(tenant, resource, t));
  }

  lemma ReserveWellFormed(s: State, req: Request, id: Id)
    requires WellFormed(s) && req.quantity <= MAX
    ensures WellFormed(Reserving(s, req, id).0)
    ensures Reserving(s, req, id).1.Granted? ==> id !in s.reservations && 0 < req.quantity && At(s, req.at) < req.expiresAt
  {
    if Reserving(s, req, id).0 != s {
      forall i | i in s.reservations ensures s.reservations[i].tenant != req.tenant || s.reservations[i].key != req.key {
        assert !IsReplay(s, req, i);
      }
    }
  }

  /** A request dated not after the clock that is granted also fits by the clock, as what is held only fades. */
  lemma UndatedFits(s: State, req: Request, id: Id)
    requires WellFormed(s) && Reserving(s, req, id).1.Granted? && At(s, req.at) <= s.now
    ensures FitsNow(s, req)
  {
    hide Active;
    ActiveFades(s, req.tenant, req.resource, At(s, req.at), s.now);
  }

  /** Whatever its date, a granted reservation oversubscribes exactly if it does not fit by the clock. */
  lemma ReserveExactly(s: State, req: Request, id: Id)
    requires Inv(s) && req.quantity <= MAX && Reserving(s, req, id).1.Granted?
    ensures NotOversubscribed(Reserving(s, req, id).0) <==> FitsNow(s, req)
  {
    var s' := Reserving(s, req, id).0;
    ReserveWellFormed(s, req, id);
    forall t, r ensures Active(s', t, r, s'.now) == Active(s, t, r, s.now) + Weight(t, r, s.now)(Fresh(req)) {
      Sums.Update(s.reservations, id, Fresh(req), Weight(t, r, s.now));
    }
    hide Active;
    if At(s, req.at) <= s.now {
      UndatedFits(s, req, id);
    }
    forall t, r ensures Active(s, t, r, s.now) <= Limit(s, t, r) == Limit(s', t, r) {}
    if FitsNow(s, req) {
      forall t, r ensures Active(s', t, r, s'.now) <= Limit(s', t, r) {}
    } else {
      assert Active(s', req.tenant, req.resource, s'.now) > Limit(s', req.tenant, req.resource);
    }
  }

  lemma ReserveKeepsInv(s: State, req: Request, id: Id)
    requires Inv(s) && req.quantity <= MAX
    ensures Inv(Reserving(s, req, id).0) <==> (Reserving(s, req, id).1.Granted? ==> FitsNow(s, req))
  {
    ReserveWellFormed(s, req, id);
    if Reserving(s, req, id).1.Granted? {
      ReserveExactly(s, req, id);
    }
  }

  lemma SettleKeepsInv(s: State, id: Id, commit: bool)
    requires Inv(s)
    ensures Inv(Settle(s, id, commit).0)
  {
    var s' := Settle(s, id, commit).0;
    if s' != s {
      forall t, r ensures Active(s', t, r, s'.now) <= Limit(s', t, r) {
        Sums.Update(s.reservations, id, s'.reservations[id], Weight(t, r, s.now));
        assert Active(s, t, r, s.now) <= Limit(s, t, r);
      }
    }
  }

  /** A plan somebody subscribes to has left the draft state, so nobody's limit ever moves. */
  lemma LimitNeverMoves(s: State, c: Command, tenant: Id, resource: string)
    requires WellFormed(s) && tenant in s.subscriptions
    ensures tenant in Step(s, c).subscriptions && Limit(Step(s, c), tenant, resource) == Limit(s, tenant, resource)
  {}

  lemma LimitOnlyGrows(s: State, c: Command, tenant: Id, resource: string)
    requires WellFormed(s)
    ensures Limit(s, tenant, resource) <= Limit(Step(s, c), tenant, resource)
  {
    if tenant in s.subscriptions {
      LimitNeverMoves(s, c, tenant, resource);
    }
  }

  lemma StepKeepsInv(s: State, c: Command)
    requires Inv(s) && Sized([c])
    ensures Inv(Step(s, c)) <==> Fitting(s, [c])
  {
    hide Inv, FitsNow;
    assert [c][1..] == [] && c in [c];
    if c.ReserveQuota? {
      ReserveKeepsInv(s, c.req, c.id);
    } else if c.SettleQuota? {
      SettleKeepsInv(s, c.id, c.commit);
    } else {
      OtherKeepsInv(s, c);
    }
  }

  lemma PlanWellFormed(s: State, c: Command)
    requires WellFormed(s) && (c.InsertPlan? || c.ActivatePlan? || c.DisablePlan? || c.ReplaceSpec?)
    ensures WellFormed(StepPlan(s, c))
  {}

  lemma OtherWellFormed(s: State, c: Command)
    requires WellFormed(s) && !c.ReserveQuota? && !c.SettleQuota?
    ensures WellFormed(Step(s, c))
  {
    hide StepPlan;
    if c.InsertPlan? || c.ActivatePlan? || c.DisablePlan? || c.ReplaceSpec? {
      PlanWellFormed(s, c);
    }
  }

  /** Time passes, or plans and accounts change: what is held only fades and the limits only grow. */
  lemma OtherKeepsInv(s: State, c: Command)
    requires Inv(s) && !c.ReserveQuota? && !c.SettleQuota?
    ensures Inv(Step(s, c))
  {
    hide WellFormed;
    var s' := Step(s, c);
    OtherWellFormed(s, c);
    forall t, r ensures Active(s', t, r, s'.now) <= Limit(s', t, r) {
      assert Active(s, t, r, s.now) <= Limit(s, t, r);
      ActiveFades(s, t, r, s.now, s'.now);
      LimitOnlyGrows(s, c, t, r);
    }
  }

  // ---------------------------------------------------------------- what is held, state by state

  ghost function CommittedUnits(tenant: Id, resource: string): Reservation -> int {
    (q: Reservation) => if q.tenant == tenant && q.resource == resource && q.state == Committed then q.quantity else 0
  }

  ghost function LiveUnits(tenant: Id, resource: string, t: int): Reservation -> int {
    (q: Reservation) =>
      if q.tenant == tenant && q.resource == resource && q.state == Reserved && t < q.expiresAt then q.quantity else 0
  }

  /** What the tenant holds of the resource at t: whatever is committed, and what is reserved and has not expired. */
  ghost function HeldUnits(s: State, tenant: Id, resource: string, t: int): int {
    Sums.Sum(s.reservations, CommittedUnits(tenant, resource)) + Sums.Sum(s.reservations, LiveUnits(tenant, resource, t))
  }

  lemma HeldByState(s: State, tenant: Id, resource: string, t: int)
    ensures Active(s, tenant, resource, t) == HeldUnits(s, tenant, resource, t)
  {
    Sums.Split(s.reservations, Weight(tenant, resource, t), CommittedUnits(tenant, resource), LiveUnits(tenant, resource, t));
  }

  /** Over every run whose granted reservations fit, what is held at any time from now on stays within the plan. */
  lemma {:induction false} NeverOversubscribed(s: State, commands: seq<Command>, tenant: Id, resource: string, t: int)
    requires Inv(s) && Sized(commands) && Fitting(s, commands)
    requires t >= Run(s, commands).now
    ensures Inv(Run(s, commands))
    ensures 0 <= Active(Run(s, commands), tenant, resource, t) <= Limit(Run(s, commands), tenant, resource)
    ensures var s' := Run(s, commands);
            && 0 <= HeldUnits(s', tenant, resource, t)
            && (HeldUnits(s', tenant, resource, t) > 0 ==>
                  && tenant in s'.subscriptions && s'.subscriptions[tenant].plan in s'.plans
                  && resource in s'.plans[s'.subscriptions[tenant].plan].quotas
                  && HeldUnits(s', tenant, resource, t) <= s'.plans[s'.subscriptions[tenant].plan].quotas[resource])
    decreases |commands|
  {
    hide HeldUnits, Step, Fitting, Active;
    if commands == [] {
      assert Run(s, commands) == s;
      ActiveFades(s, tenant, resource, s.now, t);
      HeldByState(s, tenant, resource, t);
    } else {
      FittingStep(s, commands);
      NeverOversubscribed(Step(s, commands[0]), commands[1..], tenant, resource, t);
    }
  }

  lemma FittingStep(s: State, commands: seq<Command>)
    requires commands != [] && Inv(s) && Sized(commands) && Fitting(s, commands)
    ensures Inv(Step(s, commands[0])) && Fitting(Step(s, commands[0]), commands[1..])
    ensures Run(s, commands) == Run(Step(s, commands[0]), commands[1..])
  {
    hide Inv, Step, FitsNow;
    StepKeepsInv(s, commands[0]);
    assert [commands[0]][1..] == [];
  }

  /** After every command of the run, nobody holds more than the plan allows. */
  ghost predicate AlwaysWithin(s: State, commands: seq<Command>)
    decreases |commands|
  {
    NotOversubscribed(s) && (commands == [] || AlwaysWithin(Step(s, commands[0]), commands[1..]))
  }

  /** The plans are kept to throughout a run exactly if each granted reservation fits by the clock at which it is made. */
  lemma {:induction false} WithinExactly(s: State, commands: seq<Command>)
    requires Inv(s) && Sized(commands)
    ensures AlwaysWithin(s, commands) <==> Fitting(s, commands)
    decreases |commands|
  {
    hide NotOversubscribed, Step, FitsNow;
    if commands != [] {
      StepKeepsInv(s, commands[0]);
      StepWellFormed(s, commands[0]);
      assert [commands[0]][1..] == [];
      if Inv(Step(s, commands[0])) {
        WithinExactly(Step(s, commands[0]), commands[1..]);
      }
    }
  }

  lemma StepWellFormed(s: State, c: Command)
    requires WellFormed(s) && Sized([c])
    ensures WellFormed(Step(s, c))
  {
    hide WellFormed, Reserving;
    assert c in [c];
    if c.ReserveQuota? {
      ReserveWellFormed(s, c.req, c.id);
    } else if c.SettleQuota? {
      SettleWellFormed(s, c.id, c.commit);
    } else {
      OtherWellFormed(s, c);
    }
  }

  lemma SettleWellFormed(s: State, id: Id, commit: bool)
    requires WellFormed(s)
    ensures WellFormed(Settle(s, id, commit).0)
  {}

  /** Requests dated not after the clock always fit once granted. */
  lemma {:induction false} UndatedIsFitting(s: State, commands: seq<Command>)
    requires Inv(s) && Sized(commands) && Undated(s, commands)
    ensures Fitting(s, commands)
    decreases |commands|
  {
    hide NotOversubscribed, Step, FitsNow, Reserving;
    if commands != [] {
      var c := commands[0];
      assert [c][1..] == [];
      if c.ReserveQuota? && Reserving(s, c.req, c.id).1.Granted? {
        UndatedFits(s, c.req, c.id);
      }
      assert Fitting(s, [c]);
      StepKeepsInv(s, c);
      UndatedIsFitting(Step(s, c), commands[1..]);
    }
  }

  function Empty(now: int): State {
    State(map[], map[], map[], map[], now)
  }

  /** In particular for every state the service can reach from an empty store. */
  lemma ReachableNotOversubscribed(now: int, commands: seq<Command>, tenant: Id, resource: string, t: int)
    requires Sized(commands) && Fitting(Empty(now), commands)
    requires t >= Run(Empty(now), commands).now
    ensures var s := Run(Empty(now), commands);
            && 0 <= HeldUnits(s, tenant, resource, t)
            && (HeldUnits(s, tenant, resource, t) > 0 ==>
                  && tenant in s.subscriptions && s.subscriptions[tenant].plan in s.plans
                  && resource in s.plans[s.subscriptions[tenant].plan].quotas
                  && HeldUnits(s, tenant, resource, t) <= s.plans[s.subscriptions[tenant].plan].quotas[resource])
  {
    NeverOversubscribed(Empty(now), commands, tenant, resource, t);
  }

  // ---------------------------------------------------------------- what each command answers

  predicate Proper(s: State, req: Request) {
    && req.tenant != "" && req.resource != "" && req.key != "" && 0 < req.quantity
    && (if req.at.Some? then req.at.value else s.now) < req.expiresAt
  }

  /** No reservation of the tenant was made under the request's key. */
  ghost predicate FirstTime(s: State, req: Request) {
    forall i | i in s.reservations :: s.reservations[i].tenant != req.tenant || s.reservations[i].key != req.key
  }

  /** The tenant may get something at the time: its account is neither suspended nor cancelled, its subscription runs. */
  predicate InGoodStanding(s: State, tenant: Id, at: int)
    requires tenant in s.subscriptions && tenant in s.accounts
  {
    var sub := s.subscriptions[tenant];
    && s.accounts[tenant] != Suspended && s.accounts[tenant] != Canceled && sub.state != Stopped
    && (sub.state == Trial ==> at < sub.trialEndsAt)
  }

  /** The quota that the tenant's plan has for the resource. */
  function Quota(s: State, tenant: Id, resource: string): Option<int>
    requires tenant in s.subscriptions && s.subscriptions[tenant].plan in s.plans
  {
    var quotas := s.plans[s.subscriptions[tenant].plan].quotas;
    if resource in quotas then Some(quotas[resource]) else None
  }

  /** Whether a proper request with a new key, from a tenant with subscription and account, asks for no more than is left. */
  ghost predicate LeavesRoom(s: State, req: Request)
    requires req.tenant in s.subscriptions && s.subscriptions[req.tenant].plan in s.plans
  {
    var at := if req.at.Some? then req.at.value else s.now;
    var quota := Quota(s, req.tenant, req.resource);
    quota.Some? && HeldUnits(s, req.tenant, req.resource, at) + req.quantity <= quota.value
  }

  lemma FirstTimeMeans(s: State, req: Request)
    ensures FirstTime(s, req) <==> forall i :: !IsReplay(s, req, i)
  {
    if !FirstTime(s, req) {
      var i :| i in s.reservations && s.reservations[i].tenant == req.tenant && s.reservations[i].key == req.key;
      assert IsReplay(s, req, i);
    }
  }

  /** A request is granted exactly if it is proper, new, from a tenant in good standing, and fits beside what is committed
      and what is reserved and has not expired; then one reservation is added, and otherwise nothing happens. */
  lemma GrantsExactly(s: State, req: Request, id: Id)
    requires WellFormed(s)
    ensures Reserving(s, req, id).1.Granted? <==>
      && Proper(s, req) && FirstTime(s, req) && id !in s.reservations
      && req.tenant in s.subscriptions && req.tenant in s.accounts
      && InGoodStanding(s, req.tenant, if req.at.Some? then req.at.value else s.now)
      && LeavesRoom(s, req)
    ensures Reserving(s, req, id).0 ==
      if Reserving(s, req, id).1.Granted?
      then s.(reservations := s.reservations[id :=
             Reservation(req.tenant, req.resource, req.quantity, Reserved, req.key, req, req.expiresAt)])
      else s
    ensures Reserving(s, req, id).1.Granted? ==> Reserving(s, req, id).1.id == id
  {
    hide Active, HeldUnits;
    FirstTimeMeans(s, req);
    HeldByState(s, req.tenant, req.resource, At(s, req.at));
  }

  /** Whatever is not granted is a repetition or refused, with a code for each reason. */
  lemma RefusesExactly(s: State, req: Request, id: Id)
    requires WellFormed(s)
    ensures var out := Reserving(s, req, id).1;
      && (forall i | out == Replayed(i) :: i in s.reservations && s.reservations[i].tenant == req.tenant
            && s.reservations[i].key == req.key && s.reservations[i].fingerprint == req && Proper(s, req))
      && (forall i | i in s.reservations && s.reservations[i].tenant == req.tenant && s.reservations[i].key == req.key && Proper(s, req) ::
            out == if s.reservations[i].fingerprint == req then Replayed(i) else Refused(Conflict))
      && (out == Refused(InvalidArgument) <==> !Proper(s, req))
      && (Proper(s, req) && FirstTime(s, req) ==>
            && (out == Refused(NotFound) <==> req.tenant !in s.subscriptions)
            && (req.tenant in s.subscriptions ==>
                  && (out == Refused(Unavailable) <==> req.tenant !in s.accounts)
                  && (req.tenant in s.accounts ==>
                        && (out == Refused(PermissionDenied) <==>
                              !InGoodStanding(s, req.tenant, if req.at.Some? then req.at.value else s.now)
                              || Quota(s, req.tenant, req.resource).None?)
                        && (out == Refused(QuotaExceeded) <==>
                              InGoodStanding(s, req.tenant, if req.at.Some? then req.at.value else s.now)
                              && Quota(s, req.tenant, req.resource).Some? && !LeavesRoom(s, req)))))
  {
    hide Active, HeldUnits;
    FirstTimeMeans(s, req);
    forall i | i in s.reservations && s.reservations[i].tenant == req.tenant && s.reservations[i].key == req.key
      ensures IsReplay(s, req, i)
    {}
    HeldByState(s, req.tenant, req.resource, At(s, req.at));
  }

  /** A commit succeeds exactly for a committed reservation or one that has not expired. It leaves what is held now as it is,
      and from its expiry on the quantity counts as well. */
  lemma CommitsExactly(s: State, id: Id, tenant: Id, resource: string, t: int)
    requires WellFormed(s) && id in s.reservations && t >= s.now
    ensures var q := s.reservations[id];
      var out := Settle(s, id, true);
      && out.1 == (if q.state == Committed || (q.state == Reserved && s.now < q.expiresAt) then Done else Refused(Conflict))
      && out.0 == (if out.1 == Done then s.(reservations := s.reservations[id := q.(state := Committed)]) else s)
      && HeldUnits(out.0, tenant, resource, s.now) == HeldUnits(s, tenant, resource, s.now)
      && HeldUnits(out.0, tenant, resource, t) == HeldUnits(s, tenant, resource, t) +
           if out.1 == Done && q.state == Reserved && q.tenant == tenant && q.resource == resource && q.expiresAt <= t
           then q.quantity else 0
  {
    var c := s.reservations[id].(state := Committed);
    Sums.Update(s.reservations, id, c, CommittedUnits(tenant, resource));
    Sums.Update(s.reservations, id, c, LiveUnits(tenant, resource, s.now));
    Sums.Update(s.reservations, id, c, LiveUnits(tenant, resource, t));
  }

  /** A release always succeeds, and takes the reservation out of what is held, now and later. */
  lemma ReleasesExactly(s: State, id: Id, tenant: Id, resource: string, t: int)
    requires WellFormed(s) && id in s.reservations && t >= s.now
    ensures var q := s.reservations[id];
      var out := Settle(s, id, false);
      && out == (s.(reservations := s.reservations[id := q.(state := Released)]), Done)
      && HeldUnits(out.0, tenant, resource, t) == HeldUnits(s, tenant, resource, t) -
           if q.tenant == tenant && q.resource == resource && (q.state == Committed || (q.state == Reserved && t < q.expiresAt))
           then q.quantity else 0
  {
    var c := s.reservations[id].(state := Released);
    assert c == s.reservations[id] ==> s.reservations[id := c] == s.reservations;
    Sums.Update(s.reservations, id, c, CommittedUnits(tenant, resource));
    Sums.Update(s.reservations, id, c, LiveUnits(tenant, resource, t));
  }

  /** A reservation that is nowhere cannot be settled. */
  lemma SettlesNothing(s: State, id: Id, commit: bool)
    requires id !in s.reservations
    ensures Settle(s, id, commit) == (s, Refused(NotFound))
  {}

  /** Until somebody releases it, a committed reservation stays as it is, whatever commands follow and however late it gets;
      a released one stays released for ever. */
  lemma {:induction false} SettledStays(s: State, commands: seq<Command>, id: Id)
    requires id in s.reservations && s.reservations[id].state != Reserved
    requires s.reservations[id].state == Committed ==> SettleQuota(id, false) !in commands
    ensures id in Run(s, commands).reservations && Run(s, commands).reservations[id] == s.reservations[id]
    decreases |commands|
  {
    if commands != [] {
      assert commands[0] in commands;
      SettledStep(s, commands[0], id);
      SettledStays(Step(s, commands[0]), commands[1..], id);
    }
  }

  lemma SettledStep(s: State, c: Command, id: Id)
    requires id in s.reservations && s.reservations[id].state != Reserved
    requires s.reservations[id].state == Committed ==> c != SettleQuota(id, false)
    ensures id in Step(s, c).reservations && Step(s, c).reservations[id] == s.reservations[id]
  {}

  /** So over every run what was committed counts in full at every time, until it is released. */
  lemma CommittedCounts(s: State, commands: seq<Command>, id: Id, t: int)
    requires WellFormed(s) && Sized(commands)
    requires id in s.reservations && s.reservations[id].state == Committed && SettleQuota(id, false) !in commands
    ensures HeldUnits(Run(s, commands), s.reservations[id].tenant, s.reservations[id].resource, t) >= s.reservations[id].quantity
  {
    var s', q := Run(s, commands), s.reservations[id];
    SettledStays(s, commands, id);
    RunWellFormed(s, commands);
    Sums.AtMost(s'.reservations, id, CommittedUnits(q.tenant, q.resource));
    Sums.NonNegative(s'.reservations, LiveUnits(q.tenant, q.resource, t));
  }

  lemma {:induction false} RunWellFormed(s: State, commands: seq<Command>)
    requires WellFormed(s) && Sized(commands)
    ensures WellFormed(Run(s, commands))
    decreases |commands|
  {
    hide WellFormed, Step;
    if commands != [] {
      assert commands[0] in commands;
      StepWellFormed(s, commands[0]);
      RunWellFormed(Step(s, commands[0]), commands[1..]);
    }
  }

  /** An entitlement is allowed exactly for a tenant in good standing whose plan has the feature and, if a resource is named,
      a quota with enough left beside what is held. */
  lemma AllowsExactly(s: State, req: Entitlement)
    requires WellFormed(s)
    ensures var at := if req.at.Some? then req.at.value else s.now;
      var d := Checking(s, req);
      && (d == Failed(InvalidArgument) <==> req.tenant == "" || req.feature == "" || req.quantity < 0)
      && (req.tenant != "" && req.feature != "" && req.quantity >= 0 ==>
            && (d == Failed(NotFound) <==> req.tenant !in s.subscriptions)
            && (req.tenant in s.subscriptions ==>
                  && (d == Failed(Unavailable) <==> req.tenant !in s.accounts)
                  && (req.tenant in s.accounts ==>
                        var quota := Quota(s, req.tenant, req.resource);
                        var entitled := InGoodStanding(s, req.tenant, at) && req.feature in s.plans[s.subscriptions[req.tenant].plan].features;
                        d ==
                        if !entitled || (req.resource != "" && quota.None?) then Denied
                        else if req.resource == "" then Allowed(0, 0)
                        else
                          var left := quota.value - HeldUnits(s, req.tenant, req.resource, at);
                          if req.quantity <= left || req.quantity == 0
                          then Allowed(quota.value, if left < 0 then 0 else left) else Denied)))
  {
    hide Active, HeldUnits;
    HeldByState(s, req.tenant, req.resource, At(s, req.at));
    UsedNonNegative(s, req.tenant, req.resource, At(s, req.at));
  }

  lemma UsedNonNegative(s: State, tenant: Id, resource: string, at: int)
    requires WellFormed(s)
    ensures Active(s, tenant, resource, at) >= 0
  {
    ActiveFades(s, tenant, resource, at, at);
  }

  /** An account moves along these lines only, its subscription with it, and nobody else notices. */
  lemma AccountMoves(s: State, tenant: Id, to: AccountState)
    ensures var s' := Step(s, SetAccount(tenant, to));
      var moves :=
        && tenant in s.accounts
        && ((s.accounts[tenant] == ActiveAccount && to != ActiveAccount) || (s.accounts[tenant] == Grace && to != Grace)
            || (s.accounts[tenant] == Suspended && (to == ActiveAccount || to == Canceled)));
      && s'.accounts == (if moves then s.accounts[tenant := to] else s.accounts)
      && s'.subscriptions.Keys == s.subscriptions.Keys
      && (forall t | t in s.subscriptions && (t != tenant || !moves || to == Canceled) :: s'.subscriptions[t] == s.subscriptions[t])
      && (moves && tenant in s.subscriptions && to != Canceled ==>
            && s'.subscriptions[tenant].plan == s.subscriptions[tenant].plan
            && (s'.subscriptions[tenant].state == Subscribed <==> to == ActiveAccount)
            && (s'.subscriptions[tenant].state == InGrace <==> to == Grace)
            && (s'.subscriptions[tenant].state == Stopped <==> to == Suspended))
      && s'.plans == s.plans && s'.reservations == s.reservations && s'.now == s.now
  {}

  /** Plans are drafted once, edited only as drafts, activated only from there, and disabled at any time. */
  lemma PlanMoves(s: State, id: Id, policyVersion: string, features: set<string>, quotas: map<string, int>)
    ensures var sound := forall r | r in quotas :: r != "" && 0 <= quotas[r] <= MAX;
      var draft := id in s.plans && s.plans[id].state == Draft;
      && Step(s, InsertPlan(id, policyVersion, features, quotas)) ==
         (if id !in s.plans && policyVersion != "" && sound then s.(plans := s.plans[id := Plan(Draft, policyVersion, features, quotas)]) else s)
      && Step(s, ReplaceSpec(id, features, quotas)) ==
         (if draft && sound then s.(plans := s.plans[id := Plan(Draft, s.plans[id].policyVersion, features, quotas)]) else s)
      && Step(s, ActivatePlan(id)) ==
         (if draft then s.(plans := s.plans[id := s.plans[id].(state := ActivePlan)]) else s)
      && Step(s, DisablePlan(id)) ==
         (if id in s.plans then s.(plans := s.plans[id := s.plans[id].(state := Disabled)]) else s)
  {}

  /** A tenant that has neither subscription nor account can subscribe to an active plan, and gets an active account. */
  lemma SubscribesExactly(s: State, tenant: Id, id: Id, state: SubscriptionState, ends: int)
    ensures Step(s, StartSubscription(tenant, id, state, ends)) ==
      if tenant != "" && tenant !in s.subscriptions && tenant !in s.accounts && id in s.plans && s.plans[id].state == ActivePlan
      then s.(subscriptions := s.subscriptions[tenant := Subscription(id, state, ends)], accounts := s.accounts[tenant := ActiveAccount])
      else s
  {}

  /** An entitlement that is allowed for a resource is not refused by an immediate reservation of the same quantity. */
  lemma AllowedCheckCanReserve(s: State, check: Entitlement, req: Request, id: Id)
    requires WellFormed(s) && Checking(s, check).Allowed?
    requires check.resource != "" && req.tenant == check.tenant && req.resource == check.resource
    requires 0 < req.quantity == check.quantity && At(s, req.at) == At(s, check.at) < req.expiresAt
    requires req.key != "" && (forall i :: !IsReplay(s, req, i)) && id !in s.reservations
    ensures Reserving(s, req, id) == (s.(reservations := s.reservations[id := Fresh(req)]), Granted(id))
  {}

  lemma OneMore(s: State, c: Command, rest: seq<Command>)
    ensures Run(s, [c] + rest) == Run(Step(s, c), rest)
    ensures (c.ReserveQuota? ==> At(s, c.req.at) <= s.now) && Undated(Step(s, c), rest) ==> Undated(s, [c] + rest)
  {
    hide Step;
    assert ([c] + rest)[1..] == rest;
  }

  lemma RunFour(s: State, a: Command, b: Command, c: Command, d: Command)
    requires !a.ReserveQuota? && !b.ReserveQuota? && !c.ReserveQuota? && (d.ReserveQuota? ==> d.req.at.None?)
    ensures Run(s, [a, b, c, d]) == Step(Step(Step(Step(s, a), b), c), d) && Undated(s, [a, b, c, d])
  {
    hide Step;
    assert [a, b, c, d] == [a] + ([b] + ([c] + ([d] + [])));
    OneMore(s, a, [b] + ([c] + ([d] + [])));
    OneMore(Step(s, a), b, [c] + ([d] + []));
    OneMore(Step(Step(s, a), b), c, [d] + []);
    OneMore(Step(Step(Step(s, a), b), c), d, []);
  }

  const BOUGHT := State(
    map["p" := Plan(ActivePlan, "v1", {}, map["cpu" := 1])], map["t" := Subscription("p", Subscribed, 0)], map["t" := ActiveAccount], map[], 0)

  const HOLD := Request("t", "cpu", 1, "k", 10, None)

  const AHEAD := Request("t", "cpu", 1, "l", 30, Some(20))

  lemma Buys()
    ensures var insert := InsertPlan("p", "v1", {}, map["cpu" := 1]);
            Step(Step(Step(Empty(0), insert), ActivatePlan("p")), StartSubscription("t", "p", Subscribed, 0)) == BOUGHT
  {
    var s1 := Step(Empty(0), InsertPlan("p", "v1", {}, map["cpu" := 1]));
    assert s1.plans == map["p" := Plan(Draft, "v1", {}, map["cpu" := 1])];
    var s2 := Step(s1, ActivatePlan("p"));
    assert s2.plans == BOUGHT.plans;
  }

  lemma Holds()
    ensures Reserving(BOUGHT, HOLD, "a") == (BOUGHT.(reservations := map["a" := Fresh(HOLD)]), Granted("a"))
  {
    assert Active(BOUGHT, "t", "cpu", 0) == 0;
  }

  lemma HeldOnce(t: Id, r: string, at: int)
    ensures Active(BOUGHT.(reservations := map["a" := Fresh(HOLD)]), t, r, at) == Weight(t, r, at)(Fresh(HOLD))
  {
    var held := map["a" := Fresh(HOLD)];
    Sums.Remove(held, "a", Weight(t, r, at));
    assert held - {"a"} == map[];
  }

  lemma HoldsAhead()
    ensures var s := BOUGHT.(reservations := map["a" := Fresh(HOLD)]);
            && Reserving(s, AHEAD, "b") == (s.(reservations := s.reservations["b" := Fresh(AHEAD)]), Granted("b"))
            && Active(Reserving(s, AHEAD, "b").0, "t", "cpu", 0) == 2
  {
    var s := BOUGHT.(reservations := map["a" := Fresh(HOLD)]);
    HeldOnce("t", "cpu", 20);
    HeldOnce("t", "cpu", 0);
    assert !IsReplay(s, AHEAD, "a");
    assert Refusal(s, AHEAD, "b").None?;
    Sums.Update(s.reservations, "b", Fresh(AHEAD), Weight("t", "cpu", 0));
  }

  /** A request dated after the clock is judged at its own date, so the present can be oversubscribed, in a state that commands
      without such dates reach. */
  lemma FutureDateOversubscribes() returns (commands: seq<Command>, req: Request, id: Id)
    ensures Sized(commands) && Undated(Empty(0), commands)
    ensures var s := Run(Empty(0), commands);
            At(s, req.at) > s.now && Reserving(s, req, id).1.Granted? && !NotOversubscribed(Reserving(s, req, id).0)
  {
    hide Step, Reserving, Run, Undated, Active;
    var insert, activate, start := InsertPlan("p", "v1", {}, map["cpu" := 1]), ActivatePlan("p"), StartSubscription("t", "p", Subscribed, 0);
    commands, req, id := [insert, activate, start, ReserveQuota(HOLD, "a")], AHEAD, "b";
    RunFour(Empty(0), insert, activate, start, ReserveQuota(HOLD, "a"));
    Buys();
    Holds();
    HoldsAhead();
    assert Step(BOUGHT, ReserveQuota(HOLD, "a")) == Reserving(BOUGHT, HOLD, "a").0 by {
      ReservesStep(BOUGHT, HOLD, "a");
    }
    var after := Reserving(BOUGHT.(reservations := map["a" := Fresh(HOLD)]), AHEAD, "b").0;
    assert Active(after, "t", "cpu", after.now) == 2 > Limit(after, "t", "cpu");
  }

  lemma ReservesStep(s: State, req: Request, id: Id)
    ensures Step(s, ReserveQuota(req, id)) == Reserving(s, req, id).0
  {}

  // ---------------------------------------------------------------- the service

  /** The transactional store behind the service: rows are read, checked and written back in place. */
  class Store {
    var plans: map<Id, Plan>
    var subscriptions: map<Id, Subscription>
    var accounts: map<Id, AccountState>
    var reservations: map<Id, Reservation>
    var now: int

    ghost function Snapshot(): State
      reads this
    {
      State(plans, subscriptions, accounts, reservations, now)
    }

    /** Counted reservations in whatever order the store lists them, saturating at the 64-bit maximum. */
    method ActiveQuota(tenant: Id, resource: string, at: int) returns (total: int)
      requires WellFormed(Snapshot())
      ensures total == Used(Snapshot(), tenant, resource, at)
    {
      total := 0;
      var rest := reservations;
      ghost var f := Weight(tenant, resource, at);
      while rest != map[]
        invariant forall i | i in rest :: i in reservations && rest[i] == reservations[i]
        invariant 0 <= total <= MAX
        invariant Sums.Sum(reservations, f) == total + Sums.Sum(rest, f)
        decreases |rest|
      {
        var i :| i in rest;
        var q := rest[i];
        Sums.Remove(rest, i, f);
        rest := rest - {i};
        Sums.NonNegative(rest, f);
        if q.tenant == tenant && q.resource == resource && q.CountsAgainstLimit(at) {
          if q.quantity > MAX - total {
            return MAX;
          }
          total := total + q.quantity;
        }
      }
    }

    method FindReservation(tenant: Id, key: string) returns (found: Option<Id>)
      ensures found.Some? ==> found.value in reservations && reservations[found.value].tenant == tenant && reservations[found.value].key == key
      ensures found.None? ==> forall i | i in reservations :: reservations[i].tenant != tenant || reservations[i].key != key
    {
      var rest := reservations.Keys;
      while rest != {}
        invariant rest <= reservations.Keys
        invariant forall i | i in reservations && i !in rest :: reservations[i].tenant != tenant || reservations[i].key != key
        decreases |rest|
      {
        var i :| i in rest;
        if reservations[i].tenant == tenant && reservations[i].key == key {
          return Some(i);
        }
        rest := rest - {i};
      }
      return None;
    }

    method Reserve(req: Request, id: Id) returns (out: Outcome)
      requires WellFormed(Snapshot())
      modifies this`reservations
      ensures (Snapshot(), out) == Reserving(old(Snapshot()), req, id)
    {
      if req.tenant == "" || req.resource == "" || req.key == "" || req.quantity <= 0 {
        return Refused(InvalidArgument);
      }
      var at := if req.at.Some? then req.at.value else now;
      if req.expiresAt <= at {
        return Refused(InvalidArgument);
      }
      var existing := FindReservation(req.tenant, req.key);
      if existing.Some? {
        assert IsReplay(Snapshot(), req, existing.value);
        if reservations[existing.value].fingerprint != req {
          return Refused(Conflict);
        }
        return Replayed(existing.value);
      }
      assert forall i :: !IsReplay(Snapshot(), req, i);
      if req.tenant !in subscriptions {
        return Refused(NotFound);
      }
      if req.tenant !in accounts {
        return Refused(Unavailable);
      }
      if !subscriptions[req.tenant].AllowsAllocation(at) || accounts[req.tenant] == Suspended || accounts[req.tenant] == Canceled {
        return Refused(PermissionDenied);
      }
      if subscriptions[req.tenant].plan !in plans {
        return Refused(Unavailable);
      }
      var plan := plans[subscriptions[req.tenant].plan];
      if req.resource !in plan.quotas {
        return Refused(PermissionDenied);
      }
      var used := ActiveQuota(req.tenant, req.resource, at);
      if req.quantity > plan.quotas[req.resource] - used {
        return Refused(QuotaExceeded);
      }
      if plan.policyVersion == "" {
        return Refused(InvalidArgument);
      }
      if id in reservations {
        return Refused(Conflict);
      }
      reservations := reservations[id := Reservation(req.tenant, req.resource, req.quantity, Reserved, req.key, req, req.expiresAt)];
      return Granted(id);
    }

    method Check(req: Entitlement) returns (decision: Decision)
      requires WellFormed(Snapshot())
      ensures decision == Checking(Snapshot(), req)
    {
      if req.tenant == "" || req.feature == "" || req.quantity < 0 {
        return Failed(InvalidArgument);
      }
      var at := if req.at.Some? then req.at.value else now;
      if req.tenant !in subscriptions {
        return Failed(NotFound);
      }
      if subscriptions[req.tenant].plan !in plans {
        return Failed(Unavailable);
      }
      var plan := plans[subscriptions[req.tenant].plan];
      if req.tenant !in accounts {
        return Failed(Unavailable);
      }
      if accounts[req.tenant] == Suspended || accounts[req.tenant] == Canceled || !subscriptions[req.tenant].AllowsAllocation(at) {
        return Denied;
      }
      if req.feature !in plan.features {
        return Denied;
      }
      decision := Allowed(0, 0);
      if req.resource != "" {
        if req.resource !in plan.quotas {
          return Denied;
        }
        var used := ActiveQuota(req.tenant, req.resource, at);
        var remaining := Max(0, plan.quotas[req.resource] - used);
        decision := Allowed(plan.quotas[req.resource], remaining);
        if req.quantity > remaining {
          decision := Denied;
        }
      }
    }

    /** Commit and Release share one transaction. */
    method TransitionQuota(id: Id, commit: bool) returns (out: Outcome)
      modifies this`reservations
      ensures (Snapshot(), out) == Settle(old(Snapshot()), id, commit)
    {
      if id !in reservations {
        return Refused(NotFound);
      }
      var q := reservations[id];
      if commit {
        if q.state == Committed {
          return Done;
        }
        if q.state != Reserved || now >= q.expiresAt {
          return Refused(Conflict);
        }
        q := q.(state := Committed);
      } else {
        if q.state == Released {
          return Done;
        }
        q := q.(state := Released);
      }
      reservations := reservations[id := q];
      return Done;
    }
  }
}
