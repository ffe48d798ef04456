/**
 The three stages in the form they have in the device library: fields that the handlers update in
 place, a release loop, and callbacks that re-enter the stages while that loop is running.  Every
 method is proved to compute the function of ConnectionModel it is named after; PipelineThread carries
 the run theorems over to this object.
 */
module ConnectionPipeline {
  import opened Options
  import opened ConnectionModel

  class Pipeline {
    var connected: bool                   // PipelineRootStage.connected
    var blocked: bool                     // SerializeConnectOpsStage.blocked
    var queue: seq<Op>                    // SerializeConnectOpsStage.queue
    var pendingConnectionOp: Option<Op>   // MQTTTransportStage._pending_connection_op
    var awaitingAck: seq<Op>              // operations whose acknowledgement callback is established

    ghost var handed: seq<Handed>
    ghost var left: seq<OpId>
    ghost var completed: seq<Completion>
    ghost var cancelled: seq<OpId>

    ghost function Current(): State
      reads this
    {
      State(connected, blocked, queue, pendingConnectionOp, awaitingAck, handed, left, completed, cancelled)
    }

    constructor ()
      ensures Current() == INITIAL
    {
      connected, blocked, queue, pendingConnectionOp, awaitingAck := false, false, [], None, [];
      handed, left, completed, cancelled := [], [], [], [];
    }

    // ----- EnsureConnectionStage -----

    method EnsureExecuteOp(env: Outcomes, op: Op)
      modifies this
      ensures Current() == RunEnsure(env, old(Current()), op)
    {
      if NeedsConnection(op.kind) && !connected {
        DoConnect(env, op);
      } else {
        PassOpToSerialize(env, op);
      }
    }

    method DoConnect(env: Outcomes, op: Op)
      modifies this
      ensures Current() == PassToSerialize(env, old(Current()), Op(ConnectFor(op.id), Connect, AfterConnect(op), None))
    {
      PassOpToSerialize(env, Op(ConnectFor(op.id), Connect, AfterConnect(op), None));
    }

    method OnConnectOpComplete(env: Outcomes, connectError: Option<Error>, parked: Op)
      modifies this
      ensures Current() == if connectError.Some?
                           then ConnectionModel.Complete(env, old(Current()), parked.(error := connectError))
                           else PassToSerialize(env, old(Current()), parked)
      decreases Weight(Current()) + RunWeight(parked), 2, 0
    {
      if connectError.Some? {
        CompleteOp(env, parked.(error := connectError));
      } else {
        PassOpToSerialize(env, parked);
      }
    }

    method PassOpToSerialize(env: Outcomes, op: Op)
      modifies this
      ensures Current() == PassToSerialize(env, old(Current()), op)
      decreases Weight(Current()) + RunWeight(op), 1, 0
    {
      if op.error.Some? {
        CompleteOp(env, op);
      } else {
        SerializeExecuteOp(env, op);
      }
    }

    // ----- SerializeConnectOpsStage -----

    method SerializeExecuteOp(env: Outcomes, op: Op)
      modifies this
      ensures Current() == RunSerialize(env, old(Current()), op)
      decreases Weight(Current()) + RunWeight(op), 0, 0
    {
      if blocked {
        queue := queue + [op];
        return;
      }
      left := left + [op.id];
      if op.kind.Connect? && connected {
        CompleteOp(env, op);
      } else if op.kind.Disconnect? && !connected {
        CompleteOp(env, op);
      } else if op.kind.Disconnect? || op.kind.Connect? || op.kind.Reconnect? {
        blocked := true;
        var swapped := op.(callback := Unblocking(op.callback));
        PassOpToTransport(env, swapped);
      } else {
        PassOpToTransport(env, op);
      }
    }

    method PassOpToTransport(env: Outcomes, op: Op)
      modifies this
      ensures Current() == PassToTransport(env, old(Current()), op)
      decreases Weight(Current()) + DoneWeight(op) + 1, 1, 0
    {
      if op.error.Some? {
        CompleteOp(env, op);
      } else {
        TransportExecuteOp(env, op);
      }
    }

    method Unblock(env: Outcomes, error: Option<Error>)
      modifies this
      ensures var s := old(Current());
              Current() == Release(env, s.(blocked := false, queue := []), s.queue, error)
      decreases Weight(Current()), 3, 0
    {
      blocked := false;
      var oldQueue := queue;
      queue := [];
      ghost var start := Current();
      ghost var whole := oldQueue;
      while oldQueue != []
        invariant Release(env, Current(), oldQueue, error) == Release(env, start, whole, error)
        invariant Weight(Current()) + QueueWeight(oldQueue) <= Weight(start) + QueueWeight(whole)
        decreases |oldQueue|
      {
        var opToRelease := oldQueue[0];
        oldQueue := oldQueue[1..];
        if error.Some? {
          left := left + [opToRelease.id];
          CompleteOp(env, opToRelease.(error := error));
        } else {
          SerializeExecuteOp(env, opToRelease);
        }
      }
    }

    method OnOperationComplete(env: Outcomes, op: Op, oldCallback: Callback)
      requires op.callback == Unblocking(oldCallback)
      modifies this
      ensures Current() == ConnectionModel.Complete(env, old(Current()), op)
      decreases Weight(Current()) + DoneWeight(op) - 1, 4, 0
    {
      var restored := op.(callback := oldCallback);
      Unblock(env, restored.error);
      CompleteOp(env, restored);
    }

    // ----- MQTTTransportStage -----

    method CancelPendingConnectionOp(env: Outcomes)
      modifies this
      ensures var s := old(Current());
              Current() ==
              if s.pending.Some? then
                ConnectionModel.Complete(env, s.(pending := None, cancelled := s.cancelled + [s.pending.value.id]),
                                         s.pending.value.(error := Some(Superseded)))
              else s
      decreases Weight(Current()), 1, 0
    {
      var op := pendingConnectionOp;
      if op.Some? {
        pendingConnectionOp := None;
        cancelled := cancelled + [op.value.id];
        CompleteOp(env, op.value.(error := Some(Superseded)));
      }
    }

    method TransportExecuteOp(env: Outcomes, op: Op)
      modifies this
      ensures Current() == RunTransport(env, old(Current()), op)
      decreases Weight(Current()) + DoneWeight(op) + 1, 0, 0
    {
      handed := handed + [Handed(op.id, op.kind, connected)];
      if ChangesConnection(op.kind) {
        CancelPendingConnectionOp(env);
        pendingConnectionOp := Some(op);
        if op.id in env && env[op.id].Refused? {
          pendingConnectionOp := None;
          CompleteOp(env, op.(error := Some(env[op.id].error)));
        }
      } else if NeedsConnection(op.kind) {
        if op.id !in env {
          awaitingAck := awaitingAck + [op];
        } else if env[op.id].Refused? {
          CompleteOp(env, op.(error := Some(env[op.id].error)));
        } else {
          CompleteOp(env, op);
        }
      } else {
        CompleteOp(env, op.(error := Some(NotHandled)));
      }
    }

    // ----- operation_flow -----

    method CompleteOp(env: Outcomes, op: Op)
      modifies this
      ensures Current() == ConnectionModel.Complete(env, old(Current()), op)
      decreases Weight(Current()) + DoneWeight(op), 0, 0
    {
      match op.callback
      case Upper =>
        completed := completed + [Completion(op.id, op.kind, op.error)];
      case AfterConnect(parked) =>
        OnConnectOpComplete(env, op.error, parked);
      case Unblocking(saved) =>
        OnOperationComplete(env, op, saved);
    }

    // ----- handlers of the transport -----

    method OnMqttConnected(env: Outcomes)
      modifies this
      ensures Current() == OnConnected(env, old(Current()))
    {
      connected := true;
      if pendingConnectionOp.Some? && OpensConnection(pendingConnectionOp.value.kind) {
        var op := pendingConnectionOp.value;
        pendingConnectionOp := None;
        CompleteOp(env, op);
      }
    }

    method OnMqttConnectionFailure(env: Outcomes, cause: Error)
      modifies this
      ensures Current() == OnConnectionFailure(env, old(Current()), cause)
    {
      if pendingConnectionOp.Some? && OpensConnection(pendingConnectionOp.value.kind) {
        var op := pendingConnectionOp.value;
        pendingConnectionOp := None;
        CompleteOp(env, op.(error := Some(cause)));
      }
    }

    method OnMqttDisconnected(env: Outcomes, cause: Option<Error>)
      modifies this
      ensures Current() == OnDisconnected(env, old(Current()), cause)
    {
      connected := false;
      if pendingConnectionOp.Some? && pendingConnectionOp.value.kind.Disconnect? {
        var op := pendingConnectionOp.value;
        pendingConnectionOp := None;
        if cause.Some? {
          op := op.(error := Some(ConnectionDropped(cause.value)));
        }
        CompleteOp(env, op);
      }
    }

    method OnAcknowledged(env: Outcomes, index: nat)
      modifies this
      ensures Current() == OnAck(env, old(Current()), index)
    {
      if index < |awaitingAck| {
        var op := awaitingAck[index];
        awaitingAck := awaitingAck[..index] + awaitingAck[index + 1..];
        CompleteOp(env, op);
      }
    }

    /** One task of the pipeline thread. */
    method RunTask(turn: Turn)
      modifies this
      ensures Current() == Step(old(Current()), turn)
    {
      match turn.task
      case Submit(op) => EnsureExecuteOp(turn.env, op);
      case Connected => OnMqttConnected(turn.env);
      case ConnectionFailed(cause) => OnMqttConnectionFailure(turn.env, cause);
      case Disconnected(drop) => OnMqttDisconnected(turn.env, drop);
      case Acked(index) => OnAcknowledged(turn.env, index);
    }
  }
}
