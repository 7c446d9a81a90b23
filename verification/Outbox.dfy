/** At-least-once dispatch of outbox events with leases, composed with a deduplicating inbox. Any number of
    dispatchers interleave; each may stop after any call. */
module Outbox {
  import opened Int64

  type EventId = string

  datatype Event = Event(id: EventId, payload: string)

  datatype Delivery = Pending | Dispatching(leaseUntil: int) | Published

  datatype Record = Record(event: Event, state: Delivery, attempts: nat)

  /** Producer side (outbox, in insertion order) and consumer side (inbox fingerprints, handler effects). */
  datatype State = State(
    outbox: map<EventId, Record>, order: seq<EventId>,
    inbox: map<EventId, string>, effects: seq<Event>)

  datatype Outcome = Handled | Duplicate | Refused

  // ---------------------------------------------------------------- store transactions

  function AppendOutbox(s: State, e: Event): State {
    if e.id == "" || e.id in s.outbox then s
    else s.(outbox := s.outbox[e.id := Record(e, Pending, 0)], order := s.order + [e.id])
  }

  predicate Eligible(r: Record, now: int) {
    r.state == Pending || (r.state.Dispatching? && r.state.leaseUntil <= now)
  }

  /** Claims the first eligible records in insertion order, up to the limit. */
  function Claim(outbox: map<EventId, Record>, order: seq<EventId>, limit: nat, now: int, lease: int): (map<EventId, Record>, seq<Event>)
    requires forall id | id in order :: id in outbox
  {
    if order == [] || limit == 0 then (outbox, [])
    else
      var r := outbox[order[0]];
      if Eligible(r, now) then
        var (rest, claimed) := Claim(outbox[order[0] := r.(state := Dispatching(now + lease))], order[1..], limit - 1, now, lease);
        (rest, [r.event] + claimed)
      else Claim(outbox, order[1..], limit, now, lease)
  }

  function MarkPublished(s: State, id: EventId): State {
    if id in s.outbox && s.outbox[id].state != Published
    then s.(outbox := s.outbox[id := s.outbox[id].(state := Published)]) else s
  }

  function MarkPending(s: State, id: EventId): State {
    if id in s.outbox && s.outbox[id].state != Published
    then s.(outbox := s.outbox[id := s.outbox[id].(state := Pending, attempts := s.outbox[id].attempts + 1)]) else s
  }

  /** The inbox transaction: the handler's effect and the deduplication record commit together or not at all. */
  function Process(s: State, e: Event, handlerOk: bool): (State, Outcome) {
    if e.id in s.inbox then (s, if s.inbox[e.id] == e.payload then Duplicate else Refused)
    else if !handlerOk || e.id == "" then (s, Refused)
    else (s.(inbox := s.inbox[e.id := e.payload], effects := s.effects + [e]), Handled)
  }

  // ---------------------------------------------------------------- dispatchers

  /** A dispatcher holds the events it claimed; acked is the publisher's answer for the first of them. */
  datatype Worker = Worker(queue: seq<Event>, acked: Option<bool>)

  datatype World = World(s: State, workers: map<nat, Worker>, now: int)

  datatype Move =
    | Append(e: Event)
    | ClaimBatch(w: nat, limit: nat, lease: int)
    | Publish(w: nat, handlerOk: bool, ackLost: bool)
    | Mark(w: nat, storeOk: bool)
    | Crash(w: nat)
    | Redeliver(e: Event, handlerOk: bool)
    | Tick(delta: nat)

  predicate Listed(s: State) {
    forall id | id in s.order :: id in s.outbox
  }

  /** A publisher delivers to the inbox; its acknowledgement may be lost. A move that does not apply changes nothing. */
  function Step(v: World, m: Move): World
    requires Listed(v.s)
  {
    match m
    case Append(e) => v.(s := AppendOutbox(v.s, e))
    case ClaimBatch(w, limit, lease) =>
      if w in v.workers then v
      else
        var (outbox, claimed) := Claim(v.s.outbox, v.s.order, limit, v.now, lease);
        v.(s := v.s.(outbox := outbox), workers := v.workers[w := Worker(claimed, None)])
    case Publish(w, handlerOk, ackLost) =>
      if w in v.workers && v.workers[w].queue != [] && v.workers[w].acked.None? then
        var (s, r) := Process(v.s, v.workers[w].queue[0], handlerOk);
        v.(s := s, workers := v.workers[w := v.workers[w].(acked := Some(r != Refused && !ackLost))])
      else v
    case Mark(w, storeOk) =>
      if w in v.workers && v.workers[w].queue != [] && v.workers[w].acked.Some? then
        var id := v.workers[w].queue[0].id;
        var s := if !storeOk then v.s else if v.workers[w].acked.value then MarkPublished(v.s, id) else MarkPending(v.s, id);
        v.(s := s, workers := v.workers[w := Worker(v.workers[w].queue[1..], None)])
      else v
    case Crash(w) => v.(workers := v.workers - {w})
    case Redeliver(e, handlerOk) => v.(s := Process(v.s, e, handlerOk).0)
    case Tick(delta) => v.(now := v.now + delta)
  }

  // ---------------------------------------------------------------- invariant

  /** How often an event's handler effect has been applied. */
  function Applied(effects: seq<Event>, id: EventId): nat {
    if effects == [] then 0
    else Applied(effects[..|effects| - 1], id) + if effects[|effects| - 1].id == id then 1 else 0
  }

  ghost predicate ProducerInv(s: State) {
    && (forall id :: id in s.order <==> id in s.outbox)
    && (forall i, j | 0 <= i < j < |s.order| :: s.order[i] != s.order[j])
    && (forall id | id in s.outbox :: s.outbox[id].event.id == id) && "" !in s.outbox
  }

  ghost predicate ConsumerInv(s: State) {
    && (forall id :: Applied(s.effects, id) == if id in s.inbox then 1 else 0)
    && (forall e | e in s.effects :: e.id in s.inbox && s.inbox[e.id] == e.payload)
  }

  predicate Delivered(s: State, e: Event) {
    e.id in s.inbox && s.inbox[e.id] == e.payload
  }

  ghost predicate WorkerInv(s: State, w: Worker) {
    && (forall e | e in w.queue :: e.id in s.outbox && s.outbox[e.id].event == e)
    && (w.acked == Some(true) && w.queue != [] ==> Delivered(s, w.queue[0]))
  }

  ghost predicate Inv(v: World) {
    && ProducerInv(v.s) && ConsumerInv(v.s)
    && (forall id | id in v.s.outbox && v.s.outbox[id].state == Published :: Delivered(v.s, v.s.outbox[id].event))
    && (forall w | w in v.workers :: WorkerInv(v.s, v.workers[w]))
  }

  lemma {:induction false} ClaimFacts(outbox: map<EventId, Record>, order: seq<EventId>, limit: nat, now: int, lease: int)
    requires forall id | id in order :: id in outbox
    ensures var (o, claimed) := Claim(outbox, order, limit, now, lease);
      && o.Keys == outbox.Keys
      && (forall id | id in o :: o[id].event == outbox[id].event)
      && (forall id | id in o :: o[id].state == Published <==> outbox[id].state == Published)
      && (forall id | id in o && id !in order :: o[id] == outbox[id])
      && (forall e | e in claimed :: exists id | id in order :: outbox[id].event == e)
  {
    if order != [] && limit != 0 {
      var r := outbox[order[0]];
      if Eligible(r, now) {
        ClaimFacts(outbox[order[0] := r.(state := Dispatching(now + lease))], order[1..], limit - 1, now, lease);
      } else {
        ClaimFacts(outbox, order[1..], limit, now, lease);
      }
    }
  }

  /** The records that nobody holds at a time, in insertion order: pending ones, and those whose lease is over. */
  function Free(outbox: map<EventId, Record>, order: seq<EventId>, now: int): (free: seq<EventId>)
    requires forall id | id in order :: id in outbox
    ensures forall id | id in free :: id in order
  {
    if order == [] then []
    else
      var state := outbox[order[0]].state;
      (if state == Pending || (state.Dispatching? && state.leaseUntil <= now) then [order[0]] else []) + Free(outbox, order[1..], now)
  }

  lemma {:induction false} FreeSame(a: map<EventId, Record>, b: map<EventId, Record>, order: seq<EventId>, now: int)
    requires forall id | id in order :: id in a && id in b && a[id] == b[id]
    ensures Free(a, order, now) == Free(b, order, now)
    decreases |order|
  {
    if order != [] {
      FreeSame(a, b, order[1..], now);
    }
  }

  predicate Distinct(order: seq<EventId>) {
    forall i, j | 0 <= i < j < |order| :: order[i] != order[j]
  }

  /** A claim takes the first free records up to the limit, in order, and leases each of them from now on; no other record
      changes. */
  lemma {:induction false} ClaimsExactly(outbox: map<EventId, Record>, order: seq<EventId>, limit: nat, now: int, lease: int)
    requires (forall id | id in order :: id in outbox) && Distinct(order)
    ensures var (o, claimed) := Claim(outbox, order, limit, now, lease);
      var free := Free(outbox, order, now);
      && |claimed| == (if |free| < limit then |free| else limit) && o.Keys == outbox.Keys
      && (forall i | 0 <= i < |claimed| :: claimed[i] == outbox[free[i]].event)
      && (forall id | id in outbox ::
            o[id] == if id in free[..|claimed|] then outbox[id].(state := Dispatching(now + lease)) else outbox[id])
    decreases |order|
  {
    hide Claim, Free, Eligible, Distinct;
    if order == [] || limit == 0 {
      NothingToClaim(outbox, order, limit, now, lease);
    } else {
      NextToClaim(outbox, order, limit, now, lease);
      var rest := Free(outbox, order[1..], now);
      if Eligible(outbox[order[0]], now) {
        var next := outbox[order[0] := outbox[order[0]].(state := Dispatching(now + lease))];
        FreeSame(outbox, next, order[1..], now);
        ClaimsExactly(next, order[1..], limit - 1, now, lease);
        var (o, claimed) := Claim(next, order[1..], limit - 1, now, lease);
        ClaimedNext(outbox, order[0], o, rest, claimed, now + lease);
      } else {
        ClaimsExactly(outbox, order[1..], limit, now, lease);
      }
    }
  }

  lemma NothingToClaim(outbox: map<EventId, Record>, order: seq<EventId>, limit: nat, now: int, lease: int)
    requires (forall id | id in order :: id in outbox) && (order == [] || limit == 0)
    ensures Claim(outbox, order, limit, now, lease) == (outbox, []) && (order == [] ==> Free(outbox, order, now) == [])
  {}

  /** A claim of one more record in front. */
  lemma ClaimedNext(outbox: map<EventId, Record>, first: EventId, o: map<EventId, Record>, rest: seq<EventId>, claimed: seq<Event>, until: int)
    requires first in outbox && first !in rest && |claimed| <= |rest| && o.Keys == outbox.Keys
    requires forall id | id in rest :: id in outbox
    requires forall i | 0 <= i < |claimed| :: claimed[i] == outbox[rest[i]].event
    requires var next := outbox[first := outbox[first].(state := Dispatching(until))];
      forall id | id in next :: o[id] == if id in rest[..|claimed|] then next[id].(state := Dispatching(until)) else next[id]
    ensures var free := [first] + rest;
      var all := [outbox[first].event] + claimed;
      && (forall id | id in free :: id in outbox)
      && (forall i | 0 <= i < |all| :: all[i] == outbox[free[i]].event)
      && (forall id | id in outbox :: o[id] == if id in free[..|all|] then outbox[id].(state := Dispatching(until)) else outbox[id])
  {
    var free := [first] + rest;
    assert free[..|claimed| + 1] == [first] + rest[..|claimed|];
  }

  lemma NextToClaim(outbox: map<EventId, Record>, order: seq<EventId>, limit: nat, now: int, lease: int)
    requires (forall id | id in order :: id in outbox) && Distinct(order) && order != [] && limit != 0
    ensures Distinct(order[1..]) && order[0] !in order[1..]
    ensures var next := outbox[order[0] := outbox[order[0]].(state := Dispatching(now + lease))];
      if Eligible(outbox[order[0]], now) then
        var (o, claimed) := Claim(next, order[1..], limit - 1, now, lease);
        && Claim(outbox, order, limit, now, lease) == (o, [outbox[order[0]].event] + claimed)
        && Free(outbox, order, now) == [order[0]] + Free(outbox, order[1..], now)
      else
        && Claim(outbox, order, limit, now, lease) == Claim(outbox, order[1..], limit, now, lease)
        && Free(outbox, order, now) == Free(outbox, order[1..], now)
  {}

  /** Publishing is for good, and releasing makes a record free at once and counts the attempt; nothing else changes. */
  lemma MarksExactly(s: State, id: EventId)
    ensures var published := MarkPublished(s, id);
      var released := MarkPending(s, id);
      && (id !in s.outbox || s.outbox[id].state == Published ==> published == s && released == s)
      && (id in s.outbox && s.outbox[id].state != Published ==>
            && published == s.(outbox := s.outbox[id := Record(s.outbox[id].event, Published, s.outbox[id].attempts)])
            && released == s.(outbox := s.outbox[id := Record(s.outbox[id].event, Pending, s.outbox[id].attempts + 1)]))
  {}

  /** An event takes effect exactly if its identifier is new to the inbox and the handler succeeds; then effect and inbox
      record appear together, and otherwise nothing changes. Only the payload on record is a duplicate. */
  lemma ProcessesExactly(s: State, e: Event, handlerOk: bool)
    ensures var (s', r) := Process(s, e, handlerOk);
      && (r == Handled <==> e.id != "" && e.id !in s.inbox && handlerOk)
      && (r == Duplicate <==> e.id in s.inbox && s.inbox[e.id] == e.payload)
      && s' == if r == Handled then State(s.outbox, s.order, s.inbox[e.id := e.payload], s.effects + [e]) else s
  {}

  lemma ProcessKeepsInv(s: State, e: Event, handlerOk: bool)
    requires ConsumerInv(s)
    ensures var (s', r) := Process(s, e, handlerOk);
      && ConsumerInv(s') && (r != Refused ==> Delivered(s', e))
      && (forall x | Delivered(s, x) :: Delivered(s', x))
  {
    var s' := Process(s, e, handlerOk).0;
    if s' != s {
      assert s'.effects[..|s.effects|] == s.effects;
    }
  }

  /** No event is lost or rewritten, and published is final. */
  ghost predicate Progress(s: State, s': State) {
    && (forall id | id in s.outbox :: id in s'.outbox && s'.outbox[id].event == s.outbox[id].event)
    && (forall id | id in s.outbox && s.outbox[id].state == Published :: s'.outbox[id].state == Published)
    && (forall e | Delivered(s, e) :: Delivered(s', e))
  }

  /** What the rest of the invariant needs from a change of the store. */
  ghost predicate StoreInv(s: State) {
    && ProducerInv(s) && ConsumerInv(s)
    && (forall id | id in s.outbox && s.outbox[id].state == Published :: Delivered(s, s.outbox[id].event))
  }

  lemma WorkersCarryOver(v: World, s': State)
    requires Inv(v) && StoreInv(s') && Progress(v.s, s')
    ensures Inv(v.(s := s'))
  {
    forall w | w in v.workers ensures WorkerInv(s', v.workers[w]) {
      assert WorkerInv(v.s, v.workers[w]);
    }
  }

  lemma AppendKeeps(s: State, e: Event)
    requires StoreInv(s)
    ensures StoreInv(AppendOutbox(s, e)) && Progress(s, AppendOutbox(s, e))
  {
    var s' := AppendOutbox(s, e);
    forall i, j | 0 <= i < j < |s'.order| ensures s'.order[i] != s'.order[j] {
      assert s'.order[i] in s.order;
    }
    forall id ensures id in s'.order <==> id in s'.outbox {}
  }

  lemma ClaimKeeps(s: State, limit: nat, now: int, lease: int)
    requires StoreInv(s)
    ensures var s' := s.(outbox := Claim(s.outbox, s.order, limit, now, lease).0);
      StoreInv(s') && Progress(s, s')
  {
    ClaimFacts(s.outbox, s.order, limit, now, lease);
  }

  lemma ProcessKeeps(s: State, e: Event, handlerOk: bool)
    requires StoreInv(s)
    ensures StoreInv(Process(s, e, handlerOk).0) && Progress(s, Process(s, e, handlerOk).0)
  {
    ProcessKeepsInv(s, e, handlerOk);
  }

  lemma MarkKeeps(s: State, id: EventId, published: bool)
    requires StoreInv(s)
    requires published && id in s.outbox ==> Delivered(s, s.outbox[id].event)
    ensures var s' := if published then MarkPublished(s, id) else MarkPending(s, id);
      StoreInv(s') && Progress(s, s')
  {
    if id in s.outbox && s.outbox[id].state != Published {
      var r := s.outbox[id];
      SetRecordKeeps(s, id, if published then r.(state := Published) else r.(state := Pending, attempts := r.attempts + 1));
    }
  }

  lemma SetRecordKeeps(s: State, id: EventId, r: Record)
    requires StoreInv(s) && id in s.outbox && s.outbox[id].state != Published && r.event == s.outbox[id].event
    requires r.state == Published ==> Delivered(s, r.event)
    ensures var s' := s.(outbox := s.outbox[id := r]); StoreInv(s') && Progress(s, s')
  {
    var s' := s.(outbox := s.outbox[id := r]);
    assert ConsumerInv(s');
    assert ProducerInv(s') by {
      assert forall x :: x in s'.outbox <==> x in s.outbox;
    }
    forall x | x in s'.outbox && s'.outbox[x].state == Published ensures Delivered(s', s'.outbox[x].event) {
      assert x == id || Delivered(s, s.outbox[x].event);
    }
  }

  lemma StepKeepsInv(v: World, m: Move)
    requires Inv(v)
    ensures Inv(Step(v, m)) && Progress(v.s, Step(v, m).s)
  {
    var v' := Step(v, m);
    match m
    case Append(e) =>
      AppendKeeps(v.s, e);
      WorkersCarryOver(v, v'.s);
    case ClaimBatch(w, limit, lease) =>
      ClaimKeeps(v.s, limit, v.now, lease);
      ClaimFacts(v.s.outbox, v.s.order, limit, v.now, lease);
      if w !in v.workers {
        WorkersCarryOver(v, v'.s);
      }
    case Publish(w, handlerOk, ackLost) => PublishKeeps(v, w, handlerOk, ackLost);
    case Mark(w, storeOk) => MarkMoveKeeps(v, w, storeOk);
    case Crash(w) =>
    case Redeliver(e, handlerOk) =>
      ProcessKeeps(v.s, e, handlerOk);
      WorkersCarryOver(v, v'.s);
    case Tick(delta) =>
  }

  lemma PublishKeeps(v: World, w: nat, handlerOk: bool, ackLost: bool)
    requires Inv(v)
    ensures var v' := Step(v, Publish(w, handlerOk, ackLost)); Inv(v') && Progress(v.s, v'.s)
  {
    if w in v.workers && v.workers[w].queue != [] {
      ProcessKeeps(v.s, v.workers[w].queue[0], handlerOk);
      ProcessKeepsInv(v.s, v.workers[w].queue[0], handlerOk);
      WorkersCarryOver(v, Process(v.s, v.workers[w].queue[0], handlerOk).0);
    }
  }

  lemma MarkMoveKeeps(v: World, w: nat, storeOk: bool)
    requires Inv(v)
    ensures var v' := Step(v, Mark(w, storeOk)); Inv(v') && Progress(v.s, v'.s)
  {
    var v' := Step(v, Mark(w, storeOk));
    if v' != v {
      assert WorkerInv(v.s, v.workers[w]);
      assert v.workers[w].queue[0] in v.workers[w].queue;
      MarkKeeps(v.s, v.workers[w].queue[0].id, v.workers[w].acked.value);
      WorkersCarryOver(v, v'.s);
    }
  }

  // ---------------------------------------------------------------- runs

  ghost function Run(v: World, moves: seq<Move>): World
    requires Inv(v)
    decreases |moves|
  {
    if moves == [] then v
    else
      StepKeepsInv(v, moves[0]);
      Run(Step(v, moves[0]), moves[1..])
  }

  lemma {:induction false} RunKeepsInv(v: World, moves: seq<Move>)
    requires Inv(v)
    ensures Inv(Run(v, moves)) && Progress(v.s, Run(v, moves).s)
    decreases |moves|
  {
    if moves != [] {
      StepKeepsInv(v, moves[0]);
      RunKeepsInv(Step(v, moves[0]), moves[1..]);
    }
  }

  const START: World := World(State(map[], [], map[], []), map[], 0)

  /** Over every run of appends, claims, failed and lost publishes, crashes, expiries and redeliveries: every
      effect is applied at most once, and exactly once, with the event's own payload, once it is published. */
  lemma ExactlyOnceEffect(moves: seq<Move>, id: EventId)
    ensures Inv(START)
    ensures var s := Run(START, moves).s;
      && Applied(s.effects, id) <= 1
      && (id in s.outbox && s.outbox[id].state == Published ==>
            Applied(s.effects, id) == 1 && s.outbox[id].event in s.effects)
  {
    RunKeepsInv(START, moves);
    var s := Run(START, moves).s;
    if id in s.outbox && s.outbox[id].state == Published {
      AppliedIsThere(s.effects, id);
    }
  }

  lemma {:induction false} AppliedIsThere(effects: seq<Event>, id: EventId)
    requires Applied(effects, id) > 0
    ensures exists e :: e in effects && e.id == id
  {
    var n := |effects| - 1;
    if effects[n].id == id {
      assert effects[n] in effects;
    } else {
      AppliedIsThere(effects[..n], id);
      var e :| e in effects[..n] && e.id == id;
      assert e in effects;
    }
  }

  /** Whatever happens after an event was appended or published, it stays recorded and stays published. */
  lemma NothingLost(before: seq<Move>, after: seq<Move>, id: EventId)
    ensures Inv(START) && Inv(Run(START, before))
    ensures var s, s' := Run(START, before).s, Run(Run(START, before), after).s;
      id in s.outbox ==> && id in s'.outbox && s'.outbox[id].event == s.outbox[id].event
                         && (s.outbox[id].state == Published ==> s'.outbox[id].state == Published)
  {
    RunKeepsInv(START, before);
    RunKeepsInv(Run(START, before), after);
  }

  // ---------------------------------------------------------------- the store and the dispatcher

  class Store {
    var outbox: map<EventId, Record>
    var order: seq<EventId>
    var inbox: map<EventId, string>
    var effects: seq<Event>

    ghost function Snapshot(): State
      reads this
    {
      State(outbox, order, inbox, effects)
    }

    method ClaimOutbox(limit: nat, now: int, lease: int) returns (claimed: seq<Event>)
      requires forall id | id in order :: id in outbox
      modifies this`outbox
      ensures (outbox, claimed) == Claim(old(outbox), order, limit, now, lease)
    {
      claimed := [];
      var i := 0;
      assert order[0..] == order;
      ghost var all := Claim(outbox, order, limit, now, lease);
      assert [] + all.1 == all.1;
      while i < |order| && |claimed| < limit
        invariant 0 <= i <= |order| && |claimed| <= limit
        invariant outbox.Keys == old(outbox).Keys
        invariant forall id | id in order[i..] :: id in outbox
        invariant var (o, c) := Claim(outbox, order[i..], limit - |claimed|, now, lease);
          o == all.0 && claimed + c == all.1
      {
        var id := order[i];
        var r := outbox[id];
        assert order[i..][0] == id && order[i..][1..] == order[i + 1..];
        var eligible := r.state == Pending;
        if r.state.Dispatching? && r.state.leaseUntil <= now {
          eligible := true;
        }
        if eligible {
          outbox := outbox[id := r.(state := Dispatching(now + lease))];
          ghost var c := Claim(outbox, order[i + 1..], limit - |claimed| - 1, now, lease).1;
          assert claimed + ([r.event] + c) == (claimed + [r.event]) + c;
          claimed := claimed + [r.event];
        }
        i := i + 1;
      }
      assert claimed + [] == claimed;
    }

    method MarkOutboxPublished(id: EventId)
      modifies this`outbox
      ensures Snapshot() == MarkPublished(old(Snapshot()), id)
    {
      if id in outbox && outbox[id].state != Published {
        outbox := outbox[id := outbox[id].(state := Published)];
      }
    }

    method MarkOutboxPending(id: EventId)
      modifies this`outbox
      ensures Snapshot() == MarkPending(old(Snapshot()), id)
    {
      if id !in outbox || outbox[id].state == Published {
        return;
      }
      var r := outbox[id];
      outbox := outbox[id := r.(state := Pending, attempts := r.attempts + 1)];
    }

    /** InboxProcessor.Process: the handler runs first, and its failure discards the whole transaction. */
    method ProcessEvent(e: Event, handlerOk: bool) returns (r: Outcome)
      modifies this`inbox, this`effects
      ensures (Snapshot(), r) == Process(old(Snapshot()), e, handlerOk)
    {
      if e.id in inbox {
        if inbox[e.id] != e.payload {
          return Refused;
        }
        return Duplicate;
      }
      if !handlerOk || e.id == "" {
        return Refused;
      }
      effects := effects + [e];
      inbox := inbox[e.id := e.payload];
      return Handled;
    }
  }

  datatype Fault = Fault(handlerOk: bool, ackLost: bool, storeOk: bool)

  function FaultAt(faults: seq<Fault>, i: nat): Fault {
    if i < |faults| then faults[i] else Fault(true, false, true)
  }

  lemma {:induction false} RunConcat(v: World, a: seq<Move>, b: seq<Move>)
    requires Inv(v)
    ensures Inv(Run(v, a)) && Run(v, a + b) == Run(Run(v, a), b)
    decreases |a|
  {
    if a == [] {
      assert a + b == b;
    } else {
      StepKeepsInv(v, a[0]);
      RunConcat(Step(v, a[0]), a[1..], b);
      assert (a + b)[0] == a[0] && (a + b)[1..] == a[1..] + b;
    }
  }

  lemma RunTwo(v: World, trace: seq<Move>, m: Move, n: Move)
    requires Inv(v)
    ensures Inv(Run(v, trace)) && Inv(Step(Run(v, trace), m))
    ensures Run(v, trace + [m, n]) == Step(Step(Run(v, trace), m), n)
  {
    RunConcat(v, trace, [m, n]);
    var u := Run(v, trace);
    StepKeepsInv(u, m);
    StepKeepsInv(Step(u, m), n);
    assert [m, n][1..] == [n] && [n][1..] == [];
    assert Run(Step(u, m), [n]) == Step(Step(u, m), n);
  }

  /** How many records are not published yet. */
  function Unpublished(outbox: map<EventId, Record>, order: seq<EventId>): nat
    requires forall id | id in order :: id in outbox
  {
    if order == [] then 0 else (if outbox[order[0]].state == Published then 0 else 1) + Unpublished(outbox, order[1..])
  }

  lemma {:induction false} UnpublishedSet(outbox: map<EventId, Record>, order: seq<EventId>, id: EventId, r: Record)
    requires (forall x | x in order :: x in outbox) && Distinct(order) && id in outbox
    ensures Unpublished(outbox[id := r], order) == Unpublished(outbox, order) +
      if id !in order || (outbox[id].state == Published <==> r.state == Published) then 0
      else if r.state == Published then -1 else 1
    decreases |order|
  {
    if order != [] {
      UnpublishedSet(outbox, order[1..], id, r);
      assert id in order <==> id == order[0] || id in order[1..];
    }
  }

  lemma {:induction false} UnpublishedSame(a: map<EventId, Record>, b: map<EventId, Record>, order: seq<EventId>)
    requires forall id | id in order :: id in a && id in b && a[id] == b[id]
    ensures Unpublished(a, order) == Unpublished(b, order)
    decreases |order|
  {
    if order != [] {
      UnpublishedSame(a, b, order[1..]);
    }
  }

  /** With room for all that is unpublished and no live lease, every unpublished event is claimed. */
  lemma {:induction false} ClaimsEverything(outbox: map<EventId, Record>, order: seq<EventId>, limit: nat, now: int, lease: int)
    requires forall id | id in order :: id in outbox && (outbox[id].state == Published || Eligible(outbox[id], now))
    requires forall i, j | 0 <= i < j < |order| :: order[i] != order[j]
    requires limit >= Unpublished(outbox, order)
    ensures forall id | id in order && outbox[id].state != Published :: outbox[id].event in Claim(outbox, order, limit, now, lease).1
    decreases |order|
  {
    if order != [] {
      var r := outbox[order[0]];
      if Eligible(r, now) {
        var next := outbox[order[0] := r.(state := Dispatching(now + lease))];
        UnpublishedSame(outbox, next, order[1..]);
        ClaimsEverything(next, order[1..], limit - 1, now, lease);
      } else {
        ClaimsEverything(outbox, order[1..], limit, now, lease);
        if limit == 0 {
          NothingUnpublished(outbox, order);
        }
      }
    }
  }

  lemma {:induction false} NothingUnpublished(outbox: map<EventId, Record>, order: seq<EventId>)
    requires (forall id | id in order :: id in outbox) && Unpublished(outbox, order) == 0
    ensures forall id | id in order :: outbox[id].state == Published
    decreases |order|
  {
    if order != [] {
      NothingUnpublished(outbox, order[1..]);
    }
  }

  /** No consumer has seen an outbox event's identity with another payload. */
  ghost predicate NoForgery(s: State) {
    forall id | id in s.outbox && id in s.inbox :: s.inbox[id] == s.outbox[id].event.payload
  }

  /** No live lease, room for all that is unpublished, and nothing the consumer would refuse. */
  ghost predicate CanPublishAll(s: State, limit: nat, now: int)
    requires Listed(s)
  {
    && limit >= Unpublished(s.outbox, s.order) && NoForgery(s)
    && forall id | id in s.outbox :: s.outbox[id].state == Published || Eligible(s.outbox[id], now)
  }

  lemma PublishOrMark(v: World, m: Move)
    requires Inv(v) && (m.Publish? || m.Mark?)
    ensures Step(v, m).s.outbox.Keys == v.s.outbox.Keys
    ensures NoForgery(v.s) ==> NoForgery(Step(v, m).s)
  {
    if m.Publish? && m.w in v.workers && v.workers[m.w].queue != [] {
      assert WorkerInv(v.s, v.workers[m.w]);
      assert v.workers[m.w].queue[0] in v.workers[m.w].queue;
    }
  }

  lemma ProgressTransitive(a: State, b: State, c: State)
    requires Progress(a, b) && Progress(b, c)
    ensures Progress(a, c)
  {}

  /** What publishing and marking one held event does to a run. */
  lemma PublishThenMark(start: World, trace: seq<Move>, v: World, m: Move, n: Move)
    requires Inv(start) && v == Run(start, trace)
    requires m.Publish? && n.Mark?
    ensures Inv(v)
    ensures var v' := Step(Step(v, m), n);
      && Inv(v') && v' == Run(start, trace + [m, n])
      && Progress(v.s, v'.s) && v'.s.outbox.Keys == v.s.outbox.Keys
      && (NoForgery(v.s) ==> NoForgery(v'.s))
  {
    RunTwo(start, trace, m, n);
    RunKeepsInv(start, trace);
    StepKeepsInv(v, m);
    StepKeepsInv(Step(v, m), n);
    PublishOrMark(v, m);
    PublishOrMark(Step(v, m), n);
    ProgressTransitive(v.s, Step(v, m).s, Step(Step(v, m), n).s);
  }

  ghost predicate AllPublished(s: State, events: seq<Event>) {
    forall e | e in events :: e.id in s.outbox && s.outbox[e.id].state == Published
  }

  /** Nothing stands in the way of publishing, and these events already are. */
  ghost predicate Smooth(s: State, done: seq<Event>) {
    NoForgery(s) && AllPublished(s, done)
  }

  lemma PublishedStays(s: State, s': State, events: seq<Event>, e: Event)
    requires Progress(s, s') && AllPublished(s, events)
    requires e.id in s'.outbox && s'.outbox[e.id].state == Published
    ensures AllPublished(s', events + [e])
  {}

  /** Publishing the head of the only worker's queue and marking it, in terms of the store's transactions. */
  lemma TurnOf(v: World, e: Event, rest: seq<Event>, fault: Fault)
    requires Listed(v.s) && v.workers == map[0 := Worker([e] + rest, None)]
    ensures var (s, r) := Process(v.s, e, fault.handlerOk);
            Listed(s) && Step(Step(v, Publish(0, fault.handlerOk, fault.ackLost)), Mark(0, fault.storeOk))
            == World(if !fault.storeOk then s else if r != Refused && !fault.ackLost then MarkPublished(s, e.id) else MarkPending(s, e.id),
                     map[0 := Worker(rest, None)], v.now)
  {
    assert ([e] + rest)[1..] == rest;
    assert Step(v, Publish(0, fault.handlerOk, fault.ackLost)).workers[0].queue[0] == e;
  }

  /** These events are still to be published, each under its own identifier. */
  ghost predicate Outstanding(outbox: map<EventId, Record>, events: seq<Event>) {
    && (forall i | 0 <= i < |events| :: events[i].id in outbox && outbox[events[i].id].state != Published)
    && (forall i, j | 0 <= i < j < |events| :: events[i].id != events[j].id)
  }

  lemma NextOutstanding(outbox: map<EventId, Record>, e: Event, rest: seq<Event>)
    requires Outstanding(outbox, [e] + rest)
    ensures e.id in outbox && outbox[e.id].state != Published && Outstanding(outbox, rest) && forall x | x in rest :: x.id != e.id
  {
    var all := [e] + rest;
    assert all[0] == e && forall i | 0 <= i < |rest| :: all[i + 1] == rest[i];
  }

  lemma StaysOutstanding(a: map<EventId, Record>, b: map<EventId, Record>, events: seq<Event>)
    requires Outstanding(a, events) && a.Keys == b.Keys && forall e | e in events :: e.id in a ==> b[e.id] == a[e.id]
    ensures Outstanding(b, events)
  {}

  lemma SameListed(s: State, s': State)
    requires Listed(s) && s'.order == s.order && s'.outbox.Keys == s.outbox.Keys
    ensures Listed(s')
  {}

  /** What the record of one event becomes when it is marked or released. */
  lemma Settled(s: State, e: Event, marked: bool, outbox: map<EventId, Record>)
    requires ProducerInv(s) && e.id in s.outbox && s.outbox[e.id].state != Published
    requires marked ==> outbox == MarkPublished(s, e.id).outbox
    requires !marked ==> outbox == s.outbox || outbox == MarkPending(s, e.id).outbox
    ensures outbox.Keys == s.outbox.Keys && (forall id | id in outbox && id != e.id :: outbox[id] == s.outbox[id])
    ensures Unpublished(outbox, s.order) == Unpublished(s.outbox, s.order) - if marked then 1 else 0
  {
    var r := s.outbox[e.id];
    UnpublishedSet(s.outbox, s.order, e.id, r.(state := Published));
    UnpublishedSet(s.outbox, s.order, e.id, r.(state := Pending, attempts := r.attempts + 1));
  }

  /** What has just been claimed is outstanding. */
  lemma ClaimedOutstanding(s: State, limit: nat, now: int, lease: int)
    requires ProducerInv(s)
    ensures var (o, claimed) := Claim(s.outbox, s.order, limit, now, lease);
      Outstanding(o, claimed) && o.Keys == s.outbox.Keys && Unpublished(o, s.order) == Unpublished(s.outbox, s.order)
  {
    ClaimsExactly(s.outbox, s.order, limit, now, lease);
    FreeOnes(s.outbox, s.order, now);
    var (o, claimed) := Claim(s.outbox, s.order, limit, now, lease);
    var free := Free(s.outbox, s.order, now);
    forall i | 0 <= i < |claimed| ensures claimed[i].id == free[i] && o[free[i]].state != Published {
      assert free[i] in free[..|claimed|];
    }
    ClaimFacts(s.outbox, s.order, limit, now, lease);
    UnpublishedAlike(s.outbox, o, s.order);
  }

  lemma {:induction false} FreeOnes(outbox: map<EventId, Record>, order: seq<EventId>, now: int)
    requires (forall id | id in order :: id in outbox) && Distinct(order)
    ensures Distinct(Free(outbox, order, now))
    decreases |order|
  {
    if order != [] {
      FreeOnes(outbox, order[1..], now);
      assert order[0] !in order[1..];
    }
  }

  lemma {:induction false} UnpublishedAlike(a: map<EventId, Record>, b: map<EventId, Record>, order: seq<EventId>)
    requires forall id | id in order :: id in a && id in b && (a[id].state == Published <==> b[id].state == Published)
    ensures Unpublished(a, order) == Unpublished(b, order)
    decreases |order|
  {
    if order != [] {
      UnpublishedAlike(a, b, order[1..]);
    }
  }

  class OutboxDispatcher {
    const store: Store

    constructor (store: Store)
      ensures this.store == store
    {
      this.store := store;
    }

    /** Publish one claimed event and mark it according to the publisher's answer. */
    method DispatchOne(e: Event, fault: Fault, ghost v: World, ghost rest: seq<Event>) returns (marked: bool)
      requires Inv(v) && v.s == store.Snapshot() && v.workers == map[0 := Worker([e] + rest, None)]
      modifies store
      ensures marked <==>
        && fault.storeOk && !fault.ackLost
        && (if e.id in v.s.inbox then v.s.inbox[e.id] == e.payload else fault.handlerOk)
      ensures marked ==> e.id in v.s.outbox && store.outbox == MarkPublished(v.s, e.id).outbox
      ensures !marked ==> store.outbox == v.s.outbox || store.outbox == MarkPending(v.s, e.id).outbox
      ensures store.order == v.s.order
      ensures Step(Step(v, Publish(0, fault.handlerOk, fault.ackLost)), Mark(0, fault.storeOk))
        == World(store.Snapshot(), map[0 := Worker(rest, None)], v.now)
      ensures fault == Fault(true, false, true) && NoForgery(v.s) ==>
        marked && e.id in store.outbox && store.outbox[e.id].state == Published
    {
      assert WorkerInv(v.s, v.workers[0]) && e in v.workers[0].queue;
      TurnOf(v, e, rest, fault);
      var r := store.ProcessEvent(e, fault.handlerOk);
      marked := false;
      if r == Refused || fault.ackLost {
        if fault.storeOk {
          store.MarkOutboxPending(e.id);
        }
      } else if fault.storeOk {
        store.MarkOutboxPublished(e.id);
        marked := true;
      }
    }

    /** One turn of the loop over the claimed records. */
    method DispatchNext(e: Event, rest: seq<Event>, fault: Fault, ghost start: World, ghost before: seq<Move>, ghost done: seq<Event>)
      returns (marked: bool, ghost trace: seq<Move>)
      requires Inv(start)
      requires Run(start, before) == World(store.Snapshot(), map[0 := Worker([e] + rest, None)], start.now)
      requires Listed(store.Snapshot()) && Outstanding(store.outbox, [e] + rest)
      modifies store
      ensures Run(start, trace) == World(store.Snapshot(), map[0 := Worker(rest, None)], start.now)
      ensures store.outbox.Keys == old(store.outbox).Keys && store.order == old(store.order)
      ensures Listed(store.Snapshot()) && Outstanding(store.outbox, rest)
      ensures Unpublished(store.outbox, store.order) == old(Unpublished(store.outbox, store.order)) - if marked then 1 else 0
      ensures fault == Fault(true, false, true) && Smooth(old(store.Snapshot()), done) ==> Smooth(store.Snapshot(), done + [e])
    {
      ghost var v := Run(start, before);
      ghost var m, n := Publish(0, fault.handlerOk, fault.ackLost), Mark(0, fault.storeOk);
      PublishThenMark(start, before, v, m, n);
      HeldIsRecorded(v, e, rest);
      NextOutstanding(v.s.outbox, e, rest);
      hide Outstanding, Unpublished, Step, Listed, ConsumerInv;
      marked := DispatchOne(e, fault, v, rest);
      Settled(v.s, e, marked, store.outbox);
      StaysOutstanding(v.s.outbox, store.outbox, rest);
      assert Listed(store.Snapshot()) by {
        SameListed(v.s, store.Snapshot());
      }
      trace := before + [m, n];
      if fault == Fault(true, false, true) && Smooth(v.s, done) {
        PublishedStays(v.s, store.Snapshot(), done, e);
      }
    }

    /** The loop over the claimed records. */
    method DispatchClaimed(claimed: seq<Event>, faults: seq<Fault>, ghost start: World, ghost before: seq<Move>)
      returns (published: nat, ghost trace: seq<Move>)
      requires Inv(start)
      requires Run(start, before) == World(store.Snapshot(), map[0 := Worker(claimed, None)], start.now)
      requires Listed(store.Snapshot()) && Outstanding(store.outbox, claimed)
      modifies store
      ensures Run(start, trace) == World(store.Snapshot(), map[0 := Worker([], None)], start.now)
      ensures store.outbox.Keys == old(store.outbox).Keys && store.order == old(store.order)
      ensures Listed(store.Snapshot())
      ensures Unpublished(store.outbox, store.order) == old(Unpublished(store.outbox, store.order)) - published
      ensures faults == [] && Smooth(old(store.Snapshot()), []) ==> Smooth(store.Snapshot(), claimed)
    {
      hide Run, Smooth, Outstanding, Unpublished, Step, Inv;
      trace := before;
      published := 0;
      assert claimed[0..] == claimed && claimed[..0] == [];
      for i := 0 to |claimed|
        invariant Run(start, trace) == World(store.Snapshot(), map[0 := Worker(claimed[i..], None)], start.now)
        invariant store.outbox.Keys == old(store.outbox).Keys && store.order == old(store.order)
        invariant Listed(store.Snapshot()) && Outstanding(store.outbox, claimed[i..])
        invariant Unpublished(store.outbox, store.order) == old(Unpublished(store.outbox, store.order)) - published
        invariant faults == [] && Smooth(old(store.Snapshot()), []) ==> Smooth(store.Snapshot(), claimed[..i])
      {
        assert claimed[i..] == [claimed[i]] + claimed[i + 1..] && claimed[..i + 1] == claimed[..i] + [claimed[i]];
        var marked;
        marked, trace := DispatchNext(claimed[i], claimed[i + 1..], FaultAt(faults, i), start, trace, claimed[..i]);
        if marked {
          published := published + 1;
        }
      }
      assert claimed[..|claimed|] == claimed && claimed[|claimed|..] == [];
    }

    /** One dispatch is a run of the dispatcher machine, so everything proved of runs holds of it and of a crash
        after any of its calls. It returns how many records it published; without faults, and with no live lease, it
        publishes everything it had room for. */
    method Dispatch(limit: nat, now: int, lease: int, faults: seq<Fault>) returns (published: nat, ghost trace: seq<Move>)
      requires Inv(World(store.Snapshot(), map[], now))
      modifies store
      ensures Run(World(old(store.Snapshot()), map[], now), trace) == World(store.Snapshot(), map[0 := Worker([], None)], now)
      ensures Listed(store.Snapshot()) && old(Listed(store.Snapshot()))
      ensures Unpublished(store.outbox, store.order) == old(Unpublished(store.outbox, store.order)) - published
      ensures faults == [] && CanPublishAll(old(store.Snapshot()), limit, now) ==>
        forall id | id in store.outbox :: store.outbox[id].state == Published
    {
      ghost var start := World(store.Snapshot(), map[], now);
      ghost var before := [ClaimBatch(0, limit, lease)];
      var claimed := store.ClaimOutbox(limit, now, lease);
      ClaimedOutstanding(start.s, limit, now, lease);
      assert before[1..] == [];
      StepKeepsInv(start, before[0]);
      ghost var v := Step(start, before[0]);
      assert v == World(store.Snapshot(), map[0 := Worker(claimed, None)], now);
      assert Run(start, before) == Run(v, []) == v;
      ClaimFacts(start.s.outbox, start.s.order, limit, now, lease);
      published, trace := DispatchClaimed(claimed, faults, start, before);
      if faults == [] && CanPublishAll(start.s, limit, now) {
        assert Smooth(v.s, []);
        ClaimsEverything(start.s.outbox, start.s.order, limit, now, lease);
        RunKeepsInv(start, trace);
        forall id | id in store.outbox ensures store.outbox[id].state == Published {
          assert id in start.s.order;
          if start.s.outbox[id].state != Published {
            assert start.s.outbox[id].event in claimed;
          }
        }
      }
    }
  }

  lemma HeldIsRecorded(v: World, e: Event, rest: seq<Event>)
    requires Inv(v) && v.workers == map[0 := Worker([e] + rest, None)]
    ensures e.id in v.s.outbox && v.s.outbox[e.id].event == e
  {
    assert WorkerInv(v.s, v.workers[0]) && e in v.workers[0].queue;
  }
}
