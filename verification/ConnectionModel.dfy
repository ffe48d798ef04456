/**
 The lower half of the device pipeline: EnsureConnectionStage, SerializeConnectOpsStage and
 MQTTTransportStage, glued together by operation_flow.

 An operation travels down as a value and carries its callback as data, so running a callback
 re-enters the stages as an ordinary recursive call.  Every function below is total: the measure
 in its `decreases` clause is what shows that releasing the queue, nested releases included, ends.
 */
module ConnectionModel {
  import opened Options

  datatype Error =
    | Raised(code: nat)                // whatever the transport raised or reported
    | ConnectionDropped(cause: Error)  // a disconnect with a cause
    | NotHandled                       // no stage below the transport
    | Superseded                       // the transport replaced a pending connection operation

  /** Identity of an operation; a Connect made up by EnsureConnectionStage is named after its cause. */
  datatype OpId = User(n: nat) | ConnectFor(cause: OpId)

  datatype Kind = Connect | Disconnect | Reconnect | Publish | Subscribe | Unsubscribe | Unknown

  datatype Callback =
    | Upper                        // a callback owned by the stages above or by the application
    | AfterConnect(parked: Op)     // on_connect_op_complete, closing over the operation it parked
    | Unblocking(saved: Callback)  // on_operation_complete, closing over the callback it replaced

  datatype Op = Op(id: OpId, kind: Kind, callback: Callback, error: Option<Error>)

  /** What the MQTT library does when it is handed an operation; absence means "accepted". */
  datatype Outcome = Refused(error: Error) | AckedEarly
  type Outcomes = map<OpId, Outcome>

  datatype Handed = Handed(id: OpId, kind: Kind, connected: bool)
  datatype Completion = Completion(id: OpId, kind: Kind, error: Option<Error>)

  /**
   The fields of the three stages and of the root, followed by four logs: operations handed to the
   transport stage, operations that left the serialize stage, upper callbacks that ran, and
   connection operations the transport cancelled.
   */
  datatype State = State(
    connected: bool,
    blocked: bool,
    queue: seq<Op>,
    pending: Option<Op>,
    awaitingAck: seq<Op>,
    handed: seq<Handed>,
    left: seq<OpId>,
    completed: seq<Completion>,
    cancelled: seq<OpId>)

  const INITIAL := State(false, false, [], None, [], [], [], [], [])

  predicate NeedsConnection(kind: Kind) {
    kind.Publish? || kind.Subscribe? || kind.Unsubscribe?
  }

  predicate ChangesConnection(kind: Kind) {
    kind.Connect? || kind.Disconnect? || kind.Reconnect?
  }

  predicate OpensConnection(kind: Kind) {
    kind.Connect? || kind.Reconnect?
  }

  // ----- the measure -----

  function CallbackWeight(callback: Callback): nat {
    match callback
    case Upper => 0
    case AfterConnect(parked) => 1 + RunWeight(parked)
    case Unblocking(saved) => 1 + CallbackWeight(saved)
  }

  /** What is left to do for an operation that is about to be completed. */
  function DoneWeight(op: Op): nat {
    1 + CallbackWeight(op.callback)
  }

  /** What is left to do for an operation that is about to be run by the serialize stage. */
  function RunWeight(op: Op): nat {
    4 + CallbackWeight(op.callback)
  }

  function QueueWeight(queue: seq<Op>): nat {
    if queue == [] then 0 else RunWeight(queue[0]) + QueueWeight(queue[1..])
  }

  function Weight(s: State): nat {
    QueueWeight(s.queue) + if s.pending.Some? then DoneWeight(s.pending.value) else 0
  }

  lemma {:induction false} QueueWeightAppend(queue: seq<Op>, op: Op)
    ensures QueueWeight(queue + [op]) == QueueWeight(queue) + RunWeight(op)
  {
    if queue == [] {
      assert queue + [op] == [op];
    } else {
      assert (queue + [op])[0] == queue[0] && (queue + [op])[1..] == queue[1..] + [op];
      QueueWeightAppend(queue[1..], op);
    }
  }

  // ----- the stages -----

  /** EnsureConnectionStage._execute_op and _do_connect. */
  function RunEnsure(env: Outcomes, s: State, op: Op): State {
    if NeedsConnection(op.kind) && !s.connected then
      PassToSerialize(env, s, Op(ConnectFor(op.id), Connect, AfterConnect(op), None))
    else
      PassToSerialize(env, s, op)
  }

  /** operation_flow.pass_op_to_next_stage, from EnsureConnectionStage. */
  function PassToSerialize(env: Outcomes, s: State, op: Op): (t: State)
    ensures Weight(t) <= Weight(s) + RunWeight(op)
    decreases Weight(s) + RunWeight(op), 1, 0
  {
    if op.error.Some? then Complete(env, s, op) else RunSerialize(env, s, op)
  }

  /** SerializeConnectOpsStage._execute_op. */
  function RunSerialize(env: Outcomes, s: State, op: Op): (t: State)
    ensures Weight(t) <= Weight(s) + RunWeight(op)
    decreases Weight(s) + RunWeight(op), 0, 0
  {
    if s.blocked then
      QueueWeightAppend(s.queue, op);
      s.(queue := s.queue + [op])
    else
      var s0 := s.(left := s.left + [op.id]);
      if op.kind.Connect? && s.connected then
        Complete(env, s0, op)
      else if op.kind.Disconnect? && !s.connected then
        Complete(env, s0, op)
      else if ChangesConnection(op.kind) then
        PassToTransport(env, s0.(blocked := true), op.(callback := Unblocking(op.callback)))
      else
        PassToTransport(env, s0, op)
  }

  /** operation_flow.pass_op_to_next_stage, from SerializeConnectOpsStage. */
  function PassToTransport(env: Outcomes, s: State, op: Op): (t: State)
    ensures Weight(t) <= Weight(s) + DoneWeight(op)
    decreases Weight(s) + DoneWeight(op) + 1, 1, 0
  {
    if op.error.Some? then Complete(env, s, op) else RunTransport(env, s, op)
  }

  /**
   MQTTTransportStage._execute_op, including the catch-all of run_op around it.  The original
   clears the pending slot after completing the operation it cancels; here it is cleared before.
   `RunNeverCancels` shows that this branch is never taken, so the order is never observed.
   */
  function RunTransport(env: Outcomes, s: State, op: Op): (t: State)
    ensures Weight(t) <= Weight(s) + DoneWeight(op)
    decreases Weight(s) + DoneWeight(op) + 1, 0, 0
  {
    var s0 := s.(handed := s.handed + [Handed(op.id, op.kind, s.connected)]);
    if ChangesConnection(op.kind) then
      var s1 := if s0.pending.Some? then
                  var superseded := s0.pending.value;
                  Complete(env, s0.(pending := None, cancelled := s0.cancelled + [superseded.id]),
                           superseded.(error := Some(Superseded)))
                else s0;
      if op.id in env && env[op.id].Refused? then
        Complete(env, s1.(pending := None), op.(error := Some(env[op.id].error)))
      else
        s1.(pending := Some(op))
    else if NeedsConnection(op.kind) then
      if op.id !in env then
        s0.(awaitingAck := s0.awaitingAck + [op])
      else if env[op.id].Refused? then
        Complete(env, s0, op.(error := Some(env[op.id].error)))
      else
        Complete(env, s0, op)
    else
      Complete(env, s0, op.(error := Some(NotHandled)))
  }

  /** operation_flow.complete_op: run the callback of an operation. */
  function Complete(env: Outcomes, s: State, op: Op): (t: State)
    ensures Weight(t) <= Weight(s) + CallbackWeight(op.callback)
    decreases Weight(s) + DoneWeight(op), 0, 0
  {
    match op.callback
    case Upper =>
      s.(completed := s.completed + [Completion(op.id, op.kind, op.error)])
    case AfterConnect(parked) =>
      if op.error.Some? then
        var failed := parked.(error := op.error);
        assert RunWeight(parked) == 4 + CallbackWeight(failed.callback);
        Complete(env, s, failed)
      else
        PassToSerialize(env, s, parked)
    case Unblocking(saved) =>
      var s0 := s.(blocked := false, queue := []);
      var s1 := Release(env, s0, s.queue, op.error);
      Complete(env, s1, op.(callback := saved))
  }

  /** The loop of SerializeConnectOpsStage._unblock, over the queue it swapped out. */
  function Release(env: Outcomes, s: State, queue: seq<Op>, error: Option<Error>): (t: State)
    ensures Weight(t) <= Weight(s) + QueueWeight(queue)
    decreases Weight(s) + QueueWeight(queue), 2, |queue|
  {
    if queue == [] then s
    else
      var s0 := ReleaseOne(env, s, queue[0], error);
      Release(env, s0, queue[1..], error)
  }

  /** One turn of that loop. */
  function ReleaseOne(env: Outcomes, s: State, op: Op, error: Option<Error>): (t: State)
    ensures Weight(t) <= Weight(s) + RunWeight(op)
    decreases Weight(s) + RunWeight(op), 1, 0
  {
    if error.Some? then
      Complete(env, s.(left := s.left + [op.id]), op.(error := error))
    else
      RunSerialize(env, s, op)
  }

  // ----- the tasks of the pipeline thread -----

  datatype Task =
    | Submit(op: Op)
    | Connected
    | ConnectionFailed(cause: Error)
    | Disconnected(drop: Option<Error>)
    | Acked(index: nat)

  /** One task, with the answers the MQTT library gives while it runs. */
  datatype Turn = Turn(task: Task, env: Outcomes)

  function Step(s: State, turn: Turn): State {
    var env := turn.env;
    match turn.task
    case Submit(op) => RunEnsure(env, s, op)
    case Connected => OnConnected(env, s)
    case ConnectionFailed(cause) => OnConnectionFailure(env, s, cause)
    case Disconnected(drop) => OnDisconnected(env, s, drop)
    case Acked(index) => OnAck(env, s, index)
  }

  /** MQTTTransportStage._on_mqtt_connected. */
  function OnConnected(env: Outcomes, s: State): State {
    var s0 := s.(connected := true);
    if s.pending.Some? && OpensConnection(s.pending.value.kind) then
      Complete(env, s0.(pending := None), s.pending.value)
    else
      s0
  }

  /** MQTTTransportStage._on_mqtt_connection_failure. */
  function OnConnectionFailure(env: Outcomes, s: State, cause: Error): State {
    if s.pending.Some? && OpensConnection(s.pending.value.kind) then
      Complete(env, s.(pending := None), s.pending.value.(error := Some(cause)))
    else
      s
  }

  function DropError(drop: Option<Error>): Option<Error> {
    if drop.Some? then Some(ConnectionDropped(drop.value)) else None
  }

  /** MQTTTransportStage._on_mqtt_disconnected. */
  function OnDisconnected(env: Outcomes, s: State, drop: Option<Error>): State {
    var s0 := s.(connected := false);
    if s.pending.Some? && s.pending.value.kind.Disconnect? then
      var op := s.pending.value;
      Complete(env, s0.(pending := None), if drop.Some? then op.(error := DropError(drop)) else op)
    else
      s0
  }

  /** on_published, on_subscribed and on_unsubscribed: any outstanding acknowledgement may come next. */
  function OnAck(env: Outcomes, s: State, index: nat): State {
    if index < |s.awaitingAck| then
      Complete(env, s.(awaitingAck := s.awaitingAck[..index] + s.awaitingAck[index + 1..]), s.awaitingAck[index])
    else
      s
  }

  function Run(s: State, turns: seq<Turn>): State {
    if turns == [] then s else Step(Run(s, turns[..|turns| - 1]), turns[|turns| - 1])
  }
}
