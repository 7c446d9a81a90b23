/** Operations and the events that announce them. Every state change is appended to the outbox in the same
    transaction as the row it describes. */
module OperationLog {

  type Id = string

  datatype OperationState = Pending | Running | WaitingExternal | Succeeded | Failed | Canceled {
    predicate Terminal() {
      this in {Succeeded, Failed, Canceled}
    }
  }

  datatype Operation = Operation(state: OperationState, version: nat, errorCode: string)

  /** Outbox events in insertion order; audit events are interleaved with the operation's own. */
  datatype Event = Changed(id: Id, now: Operation) | AuditRecorded(id: Id)

  datatype State = State(operations: map<Id, Operation>, log: seq<Event>)

  predicate AllowedTransition(from: OperationState, to: OperationState) {
    match from
    case Pending => to in {Running, Failed, Canceled}
    case Running => to in {WaitingExternal, Succeeded, Failed, Canceled}
    case WaitingExternal => to in {Running, Succeeded, Failed, Canceled}
    case _ => false
  }

  datatype Transitioned = Unchanged | Moved(op: Operation) | Rejected

  /** The domain transition; errorCode "" is a result without an error. */
  function Transition(op: Operation, to: OperationState, errorCode: string): (r: Transitioned)
    ensures r.Moved? ==> AllowedTransition(op.state, to) && r.op == Operation(to, op.version + 1, errorCode)
    ensures r.Moved? ==> (to == Failed ==> errorCode != "") && (to == Succeeded ==> errorCode == "")
    ensures r.Unchanged? <==> op.state == to == Canceled
  {
    if op.state == to && to == Canceled then Unchanged
    else if op.state.Terminal() || !AllowedTransition(op.state, to) then Rejected
    else if to == Failed && errorCode == "" then Rejected
    else if to == Succeeded && errorCode != "" then Rejected
    else Moved(Operation(to, op.version + 1, errorCode))
  }

  // ---------------------------------------------------------------- commands

  datatype Command =
    | Start(id: Id)
    | TransitionTo(id: Id, to: OperationState, errorCode: string)
    | Cancel(id: Id, failureId: Id)
    | RecordSuccess(id: Id)
    | RecordFailure(id: Id, errorCode: string)

  const SUCCESS: seq<Operation> := [Operation(Pending, 1, ""), Operation(Running, 2, ""), Operation(Succeeded, 3, "")]

  /** The row is saved and the event appended once for every state of the path. */
  function Announce(s: State, id: Id, ops: seq<Operation>): State
    decreases |ops|
  {
    if ops == [] then s
    else Announce(State(s.operations[id := ops[0]], s.log + [Changed(id, ops[0])]), id, ops[1..])
  }

  /** A new operation goes through these states in one transaction. */
  function Create(s: State, id: Id, ops: seq<Operation>): State {
    if id == "" || id in s.operations then s
    else
      var announced := Announce(s, id, ops);
      announced.(log := announced.log + [AuditRecorded(id)])
  }

  function Failure(errorCode: string): seq<Operation> {
    [Operation(Pending, 1, ""), Operation(Failed, 2, errorCode)]
  }

  function Move(s: State, id: Id, op: Operation): State {
    State(s.operations[id := op], s.log + [Changed(id, op), AuditRecorded(id)])
  }

  const INVALID_TRANSITION: string := "INVALID_TRANSITION"
  const NOT_FOUND: string := "NOT_FOUND"

  /** A transaction that reports an error leaves everything as it was; a cancel that the operation rejects is
      itself recorded as a failed operation. */
  function Step(s: State, c: Command): State {
    match c
    case Start(id) => Create(s, id, [Operation(Pending, 1, "")])
    case TransitionTo(id, to, code) =>
      if id !in s.operations then s
      else
        var r := Transition(s.operations[id], to, code);
        if r.Moved? then Move(s, id, r.op) else s
    case Cancel(id, failureId) =>
      if id !in s.operations then Create(s, failureId, Failure(NOT_FOUND))
      else
        var r := Transition(s.operations[id], Canceled, "");
        if r.Moved? then Move(s, id, r.op)
        else if r.Unchanged? then s.(log := s.log + [AuditRecorded(id)])
        else Create(s, failureId, Failure(INVALID_TRANSITION))
    case RecordSuccess(id) => Create(s, id, SUCCESS)
    case RecordFailure(id, code) => if code == "" then s else Create(s, id, Failure(code))
  }

  function Run(s: State, commands: seq<Command>): State
    decreases |commands|
  {
    if commands == [] then s else Run(Step(s, commands[0]), commands[1..])
  }

  // ---------------------------------------------------------------- the log against the rows

  /** Rebuilds the operations from the events alone. */
  function Replay(log: seq<Event>): map<Id, Operation> {
    if log == [] then map[]
    else
      var before, e := Replay(log[..|log| - 1]), log[|log| - 1];
      if e.Changed? then before[e.id := e.now] else before
  }

  /** One operation's states in outbox order. */
  function History(log: seq<Event>, id: Id): seq<Operation> {
    if log == [] then []
    else
      var before, e := History(log[..|log| - 1], id), log[|log| - 1];
      if e.Changed? && e.id == id then before + [e.now] else before
  }

  /** Versions 1..n along a path of the transition graph that begins at pending. */
  ghost predicate IsPath(h: seq<Operation>) {
    && (h != [] ==> h[0].state == Pending)
    && (forall k | 0 <= k < |h| :: h[k].version == k + 1)
    && (forall k | 0 <= k < |h| - 1 :: AllowedTransition(h[k].state, h[k + 1].state))
  }

  /** An operation's events tell its row. */
  ghost predicate Agrees(s: State, id: Id) {
    var h := History(s.log, id);
    && IsPath(h)
    && (id in s.operations <==> h != [])
    && (id in s.operations ==> s.operations[id] == h[|h| - 1])
  }

  ghost predicate Inv(s: State) {
    Replay(s.log) == s.operations && forall id :: Agrees(s, id)
  }

  lemma AppendOne(log: seq<Event>, e: Event, id: Id)
    ensures Replay(log + [e]) == if e.Changed? then Replay(log)[e.id := e.now] else Replay(log)
    ensures History(log + [e], id) == if e.Changed? && e.id == id then History(log, id) + [e.now] else History(log, id)
  {
    assert (log + [e])[..|log|] == log;
  }

  lemma PathGrows(h: seq<Operation>, op: Operation)
    requires IsPath(h)
    requires if h == [] then op.version == 1 && op.state == Pending
      else op.version == h[|h| - 1].version + 1 && AllowedTransition(h[|h| - 1].state, op.state)
    ensures IsPath(h + [op])
  {}

  /** What the next event of an operation may be: its first, or one allowed step from its row. */
  predicate MayFollow(s: State, id: Id, op: Operation) {
    if id in s.operations
    then op.version == s.operations[id].version + 1 && AllowedTransition(s.operations[id].state, op.state)
    else op.version == 1 && op.state == Pending
  }

  lemma AnnounceKeepsInv(s: State, id: Id, op: Operation)
    requires Inv(s) && MayFollow(s, id, op)
    ensures Inv(State(s.operations[id := op], s.log + [Changed(id, op)]))
  {
    var s' := State(s.operations[id := op], s.log + [Changed(id, op)]);
    AppendOne(s.log, Changed(id, op), id);
    assert Agrees(s, id);
    PathGrows(History(s.log, id), op);
    forall x ensures Agrees(s', x) {
      AppendOne(s.log, Changed(id, op), x);
      assert Agrees(s, x);
    }
  }

  lemma AuditKeepsInv(s: State, id: Id)
    requires Inv(s)
    ensures Inv(s.(log := s.log + [AuditRecorded(id)]))
  {
    AppendOne(s.log, AuditRecorded(id), id);
    forall x ensures Agrees(s.(log := s.log + [AuditRecorded(id)]), x) {
      AppendOne(s.log, AuditRecorded(id), x);
      assert Agrees(s, x);
    }
  }

  /** Each state of a path is one allowed step after the one before. */
  predicate Chained(ops: seq<Operation>) {
    forall k | 0 <= k < |ops| - 1 :: ops[k + 1].version == ops[k].version + 1 && AllowedTransition(ops[k].state, ops[k + 1].state)
  }

  /** Announcing a whole path of an operation, one event at a time. */
  lemma {:induction false} AnnounceAll(s: State, id: Id, ops: seq<Operation>)
    requires Inv(s) && Chained(ops) && (ops != [] ==> MayFollow(s, id, ops[0]))
    ensures Inv(Announce(s, id, ops))
    decreases |ops|
  {
    if ops != [] {
      AnnounceKeepsInv(s, id, ops[0]);
      AnnounceAll(State(s.operations[id := ops[0]], s.log + [Changed(id, ops[0])]), id, ops[1..]);
    }
  }

  lemma CreateKeepsInv(s: State, id: Id, ops: seq<Operation>)
    requires Inv(s) && ops != [] && ops[0].version == 1 && ops[0].state == Pending && Chained(ops)
    ensures Inv(Create(s, id, ops))
  {
    if id != "" && id !in s.operations {
      AnnounceAll(s, id, ops);
      AuditKeepsInv(Announce(s, id, ops), id);
    }
  }

  lemma MoveKeepsInv(s: State, id: Id, op: Operation)
    requires Inv(s) && id in s.operations && MayFollow(s, id, op)
    ensures Inv(Move(s, id, op))
  {
    AnnounceKeepsInv(s, id, op);
    AuditKeepsInv(State(s.operations[id := op], s.log + [Changed(id, op)]), id);
    assert s.log + [Changed(id, op)] + [AuditRecorded(id)] == s.log + [Changed(id, op), AuditRecorded(id)];
  }

  lemma StepKeepsInv(s: State, c: Command)
    requires Inv(s)
    ensures Inv(Step(s, c))
  {
    match c
    case Start(id) => CreateKeepsInv(s, id, [Operation(Pending, 1, "")]);
    case TransitionTo(id, to, code) =>
      if id in s.operations && Transition(s.operations[id], to, code).Moved? {
        MoveKeepsInv(s, id, Transition(s.operations[id], to, code).op);
      }
    case Cancel(id, failureId) =>
      CreateKeepsInv(s, failureId, Failure(NOT_FOUND));
      CreateKeepsInv(s, failureId, Failure(INVALID_TRANSITION));
      if id in s.operations {
        AuditKeepsInv(s, id);
        if Transition(s.operations[id], Canceled, "").Moved? {
          MoveKeepsInv(s, id, Transition(s.operations[id], Canceled, "").op);
        }
      }
    case RecordSuccess(id) => CreateKeepsInv(s, id, SUCCESS);
    case RecordFailure(id, code) => CreateKeepsInv(s, id, Failure(code));
  }

  const START: State := State(map[], [])

  lemma {:induction false} RunKeepsInv(s: State, commands: seq<Command>)
    requires Inv(s)
    ensures Inv(Run(s, commands))
    decreases |commands|
  {
    if commands != [] {
      StepKeepsInv(s, commands[0]);
      RunKeepsInv(Step(s, commands[0]), commands[1..]);
    }
  }

  /** After any commands the events alone rebuild every operation. */
  lemma LogRebuildsOperations(commands: seq<Command>)
    ensures Replay(Run(START, commands).log) == Run(START, commands).operations
  {
    RunKeepsInv(START, commands);
  }

  /** After any commands each operation's events carry versions 1..n along the transition graph, and end in its row. */
  lemma LogIsPath(commands: seq<Command>, id: Id)
    ensures var s := Run(START, commands); var h := History(s.log, id);
      && IsPath(h) && (id in s.operations <==> h != [])
      && (id in s.operations ==> s.operations[id] == h[|h| - 1] && s.operations[id].version == |h|)
  {
    RunKeepsInv(START, commands);
    assert Agrees(Run(START, commands), id);
  }

  // ---------------------------------------------------------------- what each command does, written out

  /** A transition goes through exactly along these lines, to failure only with an error code, to success only without one;
      cancelling again is the one that changes nothing, and anything else is rejected. */
  lemma TransitionsExactly(op: Operation, to: OperationState, errorCode: string)
    ensures var r := Transition(op, to, errorCode);
      && (r.Moved? <==>
            || (op.state == Pending && (to == Running || to == Canceled || (to == Failed && errorCode != "")))
            || (op.state == Running && (to == WaitingExternal || to == Canceled || (to == Succeeded && errorCode == "") || (to == Failed && errorCode != "")))
            || (op.state == WaitingExternal && (to == Running || to == Canceled || (to == Succeeded && errorCode == "") || (to == Failed && errorCode != ""))))
      && (r.Moved? ==> r.op == Operation(to, op.version + 1, errorCode))
      && (r.Unchanged? <==> op.state == Canceled && to == Canceled)
  {}

  lemma AnnouncesAll(s: State, id: Id, a: Operation, b: Operation, c: Operation)
    ensures Announce(s, id, [a]) == State(s.operations[id := a], s.log + [Changed(id, a)])
    ensures Announce(s, id, [a, b]) == State(s.operations[id := b], s.log + [Changed(id, a), Changed(id, b)])
    ensures Announce(s, id, [a, b, c]) == State(s.operations[id := c], s.log + [Changed(id, a), Changed(id, b), Changed(id, c)])
  {
    assert [a, b, c][1..] == [b, c] && [b, c][1..] == [c] && [a, b][1..] == [b] && [c][1..] == [] && [b][1..] == [] && [a][1..] == [];
    var s1 := State(s.operations[id := a], s.log + [Changed(id, a)]);
    var s2 := State(s1.operations[id := b], s1.log + [Changed(id, b)]);
    assert Announce(s1, id, [b]) == Announce(s2, id, []) && Announce(s2, id, [c]) == State(s2.operations[id := c], s2.log + [Changed(id, c)]);
    assert Announce(s, id, [a, b, c]) == Announce(s1, id, [b, c]) == Announce(s2, id, [c]);
    assert s.log + [Changed(id, a)] + [Changed(id, b)] == s.log + [Changed(id, a), Changed(id, b)];
    assert s.log + [Changed(id, a), Changed(id, b)] + [Changed(id, c)] == s.log + [Changed(id, a), Changed(id, b), Changed(id, c)];
  }

  /** A new operation is announced through every state it goes through and audited once; a used identifier changes nothing. */
  lemma CreatesExactly(s: State, id: Id, errorCode: string)
    ensures var isNew := id != "" && id !in s.operations;
      && Step(s, Start(id)) ==
         (if !isNew then s
          else State(s.operations[id := Operation(Pending, 1, "")], s.log + [Changed(id, Operation(Pending, 1, "")), AuditRecorded(id)]))
      && Step(s, RecordSuccess(id)) ==
         (if !isNew then s
          else State(s.operations[id := Operation(Succeeded, 3, "")],
                     s.log + [Changed(id, Operation(Pending, 1, "")), Changed(id, Operation(Running, 2, "")),
                              Changed(id, Operation(Succeeded, 3, "")), AuditRecorded(id)]))
      && Step(s, RecordFailure(id, errorCode)) ==
         (if !isNew || errorCode == "" then s
          else State(s.operations[id := Operation(Failed, 2, errorCode)],
                     s.log + [Changed(id, Operation(Pending, 1, "")), Changed(id, Operation(Failed, 2, errorCode)), AuditRecorded(id)]))
  {
    AnnouncesAll(s, id, Operation(Pending, 1, ""), Operation(Running, 2, ""), Operation(Succeeded, 3, ""));
    AnnouncesAll(s, id, Operation(Pending, 1, ""), Operation(Failed, 2, errorCode), Operation(Failed, 2, errorCode));
    hide Announce;
  }

  /** A transition that goes through is saved, announced and audited; one that does not changes nothing. A cancellation is
      audited also when it finds the operation cancelled, and recorded as a failure of its own when there is nothing to cancel. */
  lemma ChangesExactly(s: State, id: Id, to: OperationState, errorCode: string, failureId: Id)
    ensures Step(s, TransitionTo(id, to, errorCode)) ==
      if id in s.operations && Transition(s.operations[id], to, errorCode).Moved?
      then State(s.operations[id := Operation(to, s.operations[id].version + 1, errorCode)],
                 s.log + [Changed(id, Operation(to, s.operations[id].version + 1, errorCode)), AuditRecorded(id)])
      else s
    ensures Step(s, Cancel(id, failureId)) ==
      if id !in s.operations then Step(s, RecordFailure(failureId, "NOT_FOUND"))
      else if s.operations[id].state == Canceled then State(s.operations, s.log + [AuditRecorded(id)])
      else if s.operations[id].state == Succeeded || s.operations[id].state == Failed then Step(s, RecordFailure(failureId, "INVALID_TRANSITION"))
      else State(s.operations[id := Operation(Canceled, s.operations[id].version + 1, "")],
                 s.log + [Changed(id, Operation(Canceled, s.operations[id].version + 1, "")), AuditRecorded(id)])
  {
    hide Create;
  }

  /** Whatever commands follow, an operation that succeeded, failed or was cancelled stays exactly as it is. */
  lemma {:induction false} FinishedStays(s: State, commands: seq<Command>, id: Id)
    requires id in s.operations
    requires s.operations[id].state == Succeeded || s.operations[id].state == Failed || s.operations[id].state == Canceled
    ensures id in Run(s, commands).operations && Run(s, commands).operations[id] == s.operations[id]
    decreases |commands|
  {
    if commands != [] {
      FinishedStep(s, commands[0], id);
      FinishedStays(Step(s, commands[0]), commands[1..], id);
    }
  }

  lemma FinishedStep(s: State, c: Command, id: Id)
    requires id in s.operations
    requires s.operations[id].state == Succeeded || s.operations[id].state == Failed || s.operations[id].state == Canceled
    ensures id in Step(s, c).operations && Step(s, c).operations[id] == s.operations[id]
  {
    hide Step;
    match c
    case Start(i) => CreatesExactly(s, i, "");
    case TransitionTo(i, to, code) => ChangesExactly(s, i, to, code, "");
    case Cancel(i, f) =>
      ChangesExactly(s, i, Canceled, "", f);
      CreatesExactly(s, f, "NOT_FOUND");
      CreatesExactly(s, f, "INVALID_TRANSITION");
    case RecordSuccess(i) => CreatesExactly(s, i, "");
    case RecordFailure(i, code) => CreatesExactly(s, i, code);
  }

  // ---------------------------------------------------------------- the service

  class Service {
    var operations: map<Id, Operation>
    var log: seq<Event>

    ghost function Snapshot(): State
      reads this
    {
      State(operations, log)
    }

    method AppendOperationEvent(id: Id)
      requires id in operations
      modifies this`log
      ensures log == old(log) + [Changed(id, operations[id])]
    {
      log := log + [Changed(id, operations[id])];
    }

    method AppendAudit(id: Id)
      modifies this`log
      ensures log == old(log) + [AuditRecorded(id)]
    {
      log := log + [AuditRecorded(id)];
    }

    /** One domain transition, saved and announced. */
    method Advance(id: Id, to: OperationState, errorCode: string) returns (r: Transitioned)
      requires id in operations
      modifies this
      ensures r == Transition(old(operations)[id], to, errorCode)
      ensures r.Moved? ==> operations == old(operations)[id := r.op] && log == old(log) + [Changed(id, r.op)]
      ensures !r.Moved? ==> Snapshot() == old(Snapshot())
    {
      r := Transition(operations[id], to, errorCode);
      if r.Moved? {
        operations := operations[id := r.op];
        AppendOperationEvent(id);
      }
    }

    method StartOperation(id: Id) returns (ok: bool)
      modifies this
      ensures Snapshot() == Step(old(Snapshot()), Start(id))
      ensures ok <==> id != "" && id !in old(operations)
    {
      if id == "" || id in operations {
        return false;
      }
      operations := operations[id := Operation(Pending, 1, "")];
      AppendOperationEvent(id);
      AppendAudit(id);
      assert [Operation(Pending, 1, "")][1..] == [];
      return true;
    }

    method TransitionOperation(id: Id, to: OperationState, errorCode: string) returns (ok: bool)
      modifies this
      ensures Snapshot() == Step(old(Snapshot()), TransitionTo(id, to, errorCode))
      ensures ok <==> id in old(operations) && !Transition(old(operations)[id], to, errorCode).Rejected?
    {
      if id !in operations {
        return false;
      }
      var r := Advance(id, to, errorCode);
      if r.Moved? {
        AppendAudit(id);
      }
      return !r.Rejected?;
    }

    /** Pending, running and succeeded in one transaction: three rows written, three events. */
    method RecordSuccessfulOperation(id: Id)
      modifies this
      ensures Snapshot() == Step(old(Snapshot()), RecordSuccess(id))
    {
      if id == "" || id in operations {
        return;
      }
      operations := operations[id := Operation(Pending, 1, "")];
      AppendOperationEvent(id);
      var r := Advance(id, Running, "");
      r := Advance(id, Succeeded, "");
      AppendAudit(id);
      assert SUCCESS[1..] == [SUCCESS[1], SUCCESS[2]] && SUCCESS[1..][1..] == [SUCCESS[2]] && SUCCESS[1..][1..][1..] == [];
    }

    method RecordFailedOperation(id: Id, errorCode: string)
      modifies this
      ensures Snapshot() == Step(old(Snapshot()), RecordFailure(id, errorCode))
    {
      if errorCode == "" || id == "" || id in operations {
        return;
      }
      operations := operations[id := Operation(Pending, 1, "")];
      AppendOperationEvent(id);
      var r := Advance(id, Failed, errorCode);
      AppendAudit(id);
      ghost var f := Failure(errorCode);
      ghost var s1 := State(old(operations)[id := f[0]], old(log) + [Changed(id, f[0])]);
      assert f[1..] == [f[1]] && [f[1]][1..] == [];
      assert Announce(old(Snapshot()), id, f) == Announce(s1, id, f[1..]);
    }

    method CancelOperation(id: Id, failureId: Id)
      modifies this
      ensures Snapshot() == Step(old(Snapshot()), Cancel(id, failureId))
    {
      if id !in operations {
        RecordFailedOperation(failureId, NOT_FOUND);
        return;
      }
      var r := Advance(id, Canceled, "");
      if r.Rejected? {
        RecordFailedOperation(failureId, INVALID_TRANSITION);
        return;
      }
      AppendAudit(id);
    }
  }
}
