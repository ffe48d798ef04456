/**
 A flat account of the same pipeline: no callback runs inside another one, and the only recursion is
 a left-to-right pass over the queue.  `FlatStepIsStep` proves that, in every settled state, the
 re-entrant stages of ConnectionModel do exactly this.
 */
module ConnectionFlat {
  import opened Options
  import opened ConnectionModel

  // ----- the shapes that occur between tasks -----

  /** An operation as the upper stages submit it. */
  predicate Plain(op: Op) {
    op.error.None? && op.callback.Upper?
  }

  /** An operation as it reaches the serialize stage. */
  predicate Fresh(op: Op) {
    op.error.None? &&
    match op.callback
    case Upper => true
    case AfterConnect(parked) =>
      op.kind.Connect? && op.id == ConnectFor(parked.id) && Plain(parked) && NeedsConnection(parked.kind)
    case Unblocking(_) => false
  }

  /** A connection operation as it is known below the serialize stage. */
  predicate Below(op: Op) {
    ChangesConnection(op.kind) && op.callback.Unblocking? && Fresh(op.(callback := op.callback.saved))
  }

  predicate Shaped(s: State) {
    (forall op <- s.queue :: Fresh(op)) &&
    (forall op <- s.awaitingAck :: Plain(op) && NeedsConnection(op.kind))
  }

  /** What holds between tasks: the stage is blocked exactly while the transport has a pending operation. */
  predicate Settled(s: State) {
    Shaped(s) &&
    (s.blocked <==> s.pending.Some?) &&
    (s.pending.Some? ==> Below(s.pending.value)) &&
    (!s.blocked ==> s.queue == [])
  }

  /** What the log calls an operation. */
  datatype Name = Name(id: OpId, kind: Kind)

  function NameOf(op: Op): Name {
    Name(op.id, op.kind)
  }

  /** The submitted operation on whose behalf `op` travels. */
  function Origin(op: Op): Name {
    OriginOf(NameOf(op), op.callback)
  }

  function OriginOf(name: Name, callback: Callback): Name
    decreases callback
  {
    match callback
    case Upper => name
    case AfterConnect(parked) => OriginOf(NameOf(parked), parked.callback)
    case Unblocking(saved) => OriginOf(name, saved)
  }

  function Root(op: Op): OpId {
    Origin(op).id
  }

  // ----- the flat pipeline -----

  function Done(s: State, name: Name, error: Option<Error>): State {
    s.(completed := s.completed + [Completion(name.id, name.kind, error)])
  }

  function Depart(s: State, op: Op): State {
    s.(left := s.left + [op.id])
  }

  function HandDown(s: State, op: Op): State {
    s.(handed := s.handed + [Handed(op.id, op.kind, s.connected)])
  }

  /** A publish, subscribe or unsubscribe reaches the transport. */
  function Transmit(env: Outcomes, s: State, op: Op): State {
    var s0 := HandDown(s, op);
    if op.id !in env then s0.(awaitingAck := s0.awaitingAck + [op])
    else if env[op.id].Refused? then Done(s0, NameOf(op), Some(env[op.id].error))
    else Done(s0, NameOf(op), None)
  }

  predicate Refuses(env: Outcomes, op: Op) {
    op.id in env && env[op.id].Refused?
  }

  /** An operation reaches the serialize stage. */
  function Admit(env: Outcomes, s: State, op: Op): State {
    if s.blocked then
      s.(queue := s.queue + [op])
    else if op.kind.Connect? && s.connected then
      if op.callback.AfterConnect? then
        Transmit(env, Depart(Depart(s, op), op.callback.parked), op.callback.parked)
      else
        Done(Depart(s, op), NameOf(op), None)
    else if op.kind.Disconnect? && !s.connected then
      Done(Depart(s, op), NameOf(op), None)
    else if ChangesConnection(op.kind) then
      var s0 := HandDown(Depart(s, op), op);
      if Refuses(env, op) then
        Done(s0, Origin(op), Some(env[op.id].error))
      else
        s0.(blocked := true, pending := Some(op.(callback := Unblocking(op.callback))))
    else if NeedsConnection(op.kind) then
      Transmit(env, Depart(s, op), op)
    else
      Done(HandDown(Depart(s, op), op), NameOf(op), Some(NotHandled))
  }

  function AdmitAll(env: Outcomes, s: State, ops: seq<Op>): State
    decreases |ops|
  {
    if ops == [] then s else AdmitAll(env, Admit(env, s, ops[0]), ops[1..])
  }

  function Failure(op: Op, error: Error): Completion {
    Completion(Origin(op).id, Origin(op).kind, Some(error))
  }

  function Failures(ops: seq<Op>, error: Error): seq<Completion> {
    seq(|ops|, i requires 0 <= i < |ops| => Failure(ops[i], error))
  }

  function Ids(ops: seq<Op>): seq<OpId> {
    seq(|ops|, i requires 0 <= i < |ops| => ops[i].id)
  }

  function FailAll(s: State, ops: seq<Op>, error: Error): State {
    s.(left := s.left + Ids(ops), completed := s.completed + Failures(ops, error))
  }

  /** The pending operation `op` succeeds: the queue goes first, `op` itself last. */
  function Succeed(env: Outcomes, s: State, op: Op): State
    requires op.callback.Unblocking?
  {
    var s0 := s.(blocked := false, pending := None, queue := []);
    var s1 := AdmitAll(env, s0, s.queue);
    if op.callback.saved.AfterConnect? then Admit(env, s1, op.callback.saved.parked) else Done(s1, NameOf(op), None)
  }

  /** The pending operation `op` fails, and everything queued fails with it. */
  function Fail(s: State, op: Op, error: Error): State {
    var s0 := s.(blocked := false, pending := None, queue := []);
    Done(FailAll(s0, s.queue, error), Origin(op), Some(error))
  }

  /** The connect EnsureConnectionStage makes up for an operation that needs one. */
  function ConnectOpFor(op: Op): Op {
    Op(ConnectFor(op.id), Connect, AfterConnect(op), None)
  }

  /** What reaches the serialize stage when `op` is submitted. */
  function Arrival(s: State, op: Op): Op {
    if NeedsConnection(op.kind) && !s.connected then ConnectOpFor(op) else op
  }

  function FlatStep(s: State, turn: Turn): State
    requires Settled(s)
  {
    var env := turn.env;
    match turn.task
    case Submit(op) => Admit(env, s, Arrival(s, op))
    case Connected =>
      var s0 := s.(connected := true);
      if s.pending.Some? && OpensConnection(s.pending.value.kind) then Succeed(env, s0, s.pending.value) else s0
    case ConnectionFailed(cause) =>
      if s.pending.Some? && OpensConnection(s.pending.value.kind) then Fail(s, s.pending.value, cause) else s
    case Disconnected(drop) =>
      var s0 := s.(connected := false);
      if s.pending.Some? && s.pending.value.kind.Disconnect? then
        if drop.Some? then Fail(s0, s.pending.value, ConnectionDropped(drop.value))
        else Succeed(env, s0, s.pending.value)
      else s0
    case Acked(index) =>
      if index < |s.awaitingAck| then
        Done(s.(awaitingAck := s.awaitingAck[..index] + s.awaitingAck[index + 1..]), NameOf(s.awaitingAck[index]), None)
      else s
  }

  /** Whose operation a connection operation below the serialize stage is. */
  lemma OriginBelow(op: Op)
    requires Below(op)
    ensures op.callback.saved.Upper? ==> Origin(op) == NameOf(op)
    ensures op.callback.saved.AfterConnect? ==>
              Origin(op) == Origin(op.callback.saved.parked) == NameOf(op.callback.saved.parked)
  {
    var saved := op.callback.saved;
    assert Origin(op) == OriginOf(NameOf(op), saved);
    if saved.AfterConnect? {
      assert Plain(saved.parked);
    }
  }

  // ----- the re-entrant pipeline is the flat one -----

  lemma TransmitIsTransport(env: Outcomes, s: State, op: Op)
    requires Plain(op) && NeedsConnection(op.kind)
    ensures PassToTransport(env, s, op) == Transmit(env, s, op)
  {
    var s0 := HandDown(s, op);
    if op.id in env {
      var error := if env[op.id].Refused? then Some(env[op.id].error) else None;
      assert Complete(env, s0, op.(error := error)) == Done(s0, NameOf(op), error);
    }
    assert RunTransport(env, s, op) == Transmit(env, s, op);
  }

  /** A failed connection operation reports to the one it was made for, or to its own caller. */
  lemma FailureReachesRoot(env: Outcomes, s: State, op: Op, error: Error)
    requires Fresh(op)
    ensures Complete(env, s, op.(error := Some(error))) == Done(s, Origin(op), Some(error))
  {
    if op.callback.AfterConnect? {
      var parked := op.callback.parked.(error := Some(error));
      assert Complete(env, s, op.(error := Some(error))) == Complete(env, s, parked);
      assert Complete(env, s, parked) == Done(s, NameOf(parked), Some(error));
      assert Origin(op) == Origin(op.callback.parked) == NameOf(parked);
    }
  }

  /** While the stage is open its queue is empty, so a nested unblock releases nothing. */
  lemma NestedUnblockFindsNothing(env: Outcomes, s: State, op: Op, error: Error)
    requires Below(op) && s.queue == [] && s.blocked
    ensures Complete(env, s, op.(error := Some(error))) == Done(s.(blocked := false), Origin(op), Some(error))
  {
    var unblocked := s.(blocked := false, queue := []);
    assert Release(env, unblocked, s.queue, Some(error)) == unblocked;
    FailureReachesRoot(env, unblocked, op.(callback := op.callback.saved), error);
  }

  lemma AdmitIsSerialize(env: Outcomes, s: State, op: Op)
    requires Settled(s) && Fresh(op)
    ensures RunSerialize(env, s, op) == Admit(env, s, op)
  {
    if !s.blocked {
      var s0 := Depart(s, op);
      if op.kind.Connect? && s.connected {
        if op.callback.AfterConnect? {
          var parked := op.callback.parked;
          TransmitIsTransport(env, Depart(s0, parked), parked);
          assert Complete(env, s0, op) == PassToSerialize(env, s0, parked);
        }
      } else if ChangesConnection(op.kind) && !(op.kind.Disconnect? && !s.connected) {
        var below := op.(callback := Unblocking(op.callback));
        var s1 := s0.(blocked := true);
        if Refuses(env, op) {
          assert below.(callback := below.callback.saved) == op;
          NestedUnblockFindsNothing(env, HandDown(s1, op), below, env[op.id].error);
        }
        assert RunTransport(env, s1, below) == Admit(env, s, op);
      } else if NeedsConnection(op.kind) {
        TransmitIsTransport(env, s0, op);
      } else if op.kind.Unknown? {
        FailureReachesRoot(env, HandDown(s0, op), op, NotHandled);
        assert RunTransport(env, s0, op) == Admit(env, s, op);
      }
    }
  }

  lemma EnsureIsAdmit(env: Outcomes, s: State, op: Op)
    requires Settled(s) && Plain(op)
    ensures RunEnsure(env, s, op) == Admit(env, s, Arrival(s, op)) && Fresh(Arrival(s, op))
  {
    AdmitIsSerialize(env, s, Arrival(s, op));
  }

  lemma AdmitSettles(env: Outcomes, s: State, op: Op)
    requires Settled(s) && Fresh(op)
    ensures Settled(Admit(env, s, op))
    ensures Admit(env, s, op).connected == s.connected && Admit(env, s, op).cancelled == s.cancelled
  {
    if !s.blocked && ChangesConnection(op.kind) {
      assert op.(callback := Unblocking(op.callback)).(callback := op.callback) == op;
    }
  }

  lemma {:induction false} ReleaseIsAdmitAll(env: Outcomes, s: State, ops: seq<Op>)
    requires Settled(s) && forall op <- ops :: Fresh(op)
    ensures Release(env, s, ops, None) == AdmitAll(env, s, ops)
    ensures Settled(AdmitAll(env, s, ops))
    ensures AdmitAll(env, s, ops).connected == s.connected && AdmitAll(env, s, ops).cancelled == s.cancelled
    decreases |ops|
  {
    if ops != [] {
      AdmitIsSerialize(env, s, ops[0]);
      AdmitSettles(env, s, ops[0]);
      ReleaseIsAdmitAll(env, Admit(env, s, ops[0]), ops[1..]);
    }
  }

  lemma {:induction false} ReleaseIsFailAll(env: Outcomes, s: State, ops: seq<Op>, error: Error)
    requires forall op <- ops :: Fresh(op)
    ensures Release(env, s, ops, Some(error)) == FailAll(s, ops, error)
    decreases |ops|
  {
    if ops == [] {
      assert FailAll(s, ops, error) == s;
    } else {
      FailureReachesRoot(env, Depart(s, ops[0]), ops[0], error);
      var s0 := Done(Depart(s, ops[0]), Origin(ops[0]), Some(error));
      ReleaseIsFailAll(env, s0, ops[1..], error);
      assert Ids(ops) == [ops[0].id] + Ids(ops[1..]);
      assert Failures(ops, error) == [Failure(ops[0], error)] + Failures(ops[1..], error);
      assert s.left + Ids(ops) == s0.left + Ids(ops[1..]);
      assert s.completed + Failures(ops, error) == s0.completed + Failures(ops[1..], error);
    }
  }

  lemma SucceedIsComplete(env: Outcomes, s: State, op: Op)
    requires Shaped(s) && Below(op)
    ensures Complete(env, s.(pending := None), op) == Succeed(env, s, op)
    ensures Settled(Succeed(env, s, op))
    ensures Succeed(env, s, op).connected == s.connected && Succeed(env, s, op).cancelled == s.cancelled
  {
    var s0 := s.(blocked := false, pending := None, queue := []);
    ReleaseIsAdmitAll(env, s0, s.queue);
    var s1 := AdmitAll(env, s0, s.queue);
    if op.callback.saved.AfterConnect? {
      var parked := op.callback.saved.parked;
      AdmitIsSerialize(env, s1, parked);
      AdmitSettles(env, s1, parked);
      assert Complete(env, s1, op.(callback := op.callback.saved)) == PassToSerialize(env, s1, parked);
    }
  }

  lemma FailIsComplete(env: Outcomes, s: State, op: Op, error: Error)
    requires Shaped(s) && Below(op)
    ensures Complete(env, s.(pending := None), op.(error := Some(error))) == Fail(s, op, error)
    ensures Settled(Fail(s, op, error))
  {
    var s0 := s.(blocked := false, pending := None, queue := []);
    ReleaseIsFailAll(env, s0, s.queue, error);
    FailureReachesRoot(env, FailAll(s0, s.queue, error), op.(callback := op.callback.saved), error);
  }

  /** A turn as the upper stages and the MQTT library may produce it. */
  predicate Proper(turn: Turn) {
    turn.task.Submit? ==> Plain(turn.task.op)
  }

  /** Every task keeps the pipeline settled, cancels nothing, and does what the flat pipeline does. */
  lemma FlatStepIsStep(s: State, turn: Turn)
    requires Settled(s) && Proper(turn)
    ensures Step(s, turn) == FlatStep(s, turn)
    ensures Settled(FlatStep(s, turn))
    ensures FlatStep(s, turn).cancelled == s.cancelled
  {
    var env := turn.env;
    match turn.task
    case Submit(op) =>
      EnsureIsAdmit(env, s, op);
      AdmitSettles(env, s, Arrival(s, op));
    case Connected =>
      if s.pending.Some? { SucceedIsComplete(env, s.(connected := true), s.pending.value); }
    case ConnectionFailed(cause) =>
      if s.pending.Some? { FailIsComplete(env, s, s.pending.value, cause); }
    case Disconnected(drop) =>
      var s0 := s.(connected := false);
      if s.pending.Some? {
        if drop.Some? {
          FailIsComplete(env, s0, s.pending.value, ConnectionDropped(drop.value));
        } else {
          SucceedIsComplete(env, s0, s.pending.value);
        }
      }
    case Acked(index) =>
  }
}
