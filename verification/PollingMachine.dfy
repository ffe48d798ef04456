/** The polling machine as an object whose handlers update its fields; each is proved against PollingModel. */
module PollingMachine {
  import opened Options
  import opened PollingReplies
  import opened PollingTopics
  import opened PollingModel

  class Machine {
    var phase: Phase
    var queryTimer: Timer
    var pollingTimer: Timer
    var pollFor: Option<string>
    var operations: map<RequestId, string>
    var pendingRequests: map<RequestId, Handler>
    var subscribing: bool
    var registerCallback: bool
    var cancelCallback: bool
    var registrationError: Option<Failure>
    var registrationResult: Option<Reply>
    var disconnects: seq<Goal>

    ghost var sent: seq<Sent>
    ghost var calls: seq<Call>
    ghost var overwritten: nat

    ghost function Current(): State
      reads this
    {
      State(phase, queryTimer, pollingTimer, pollFor, operations, pendingRequests, subscribing, registerCallback,
            cancelCallback, registrationError, registrationResult, disconnects, sent, calls, overwritten)
    }

    constructor ()
      ensures Current() == INITIAL
    {
      phase, queryTimer, pollingTimer, pollFor := Disconnected, Unset, Unset, None;
      operations, pendingRequests := map[], map[];
      subscribing, registerCallback, cancelCallback := false, false, false;
      registrationError, registrationResult, disconnects := None, None, [];
      sent, calls, overwritten := [], [], 0;
    }

    // ----- user calls -----

    method Register(callback: bool) returns (raised: bool)
      modifies this
      ensures Outcome(Current(), raised) == StepOutcome(old(Current()), Event.Register(callback))
    {
      registerCallback := callback;
      if phase.Disconnected? || phase.Error? {
        subscribing := true;
        phase := Initializing;
        return false;
      }
      return !phase.Registering?;
    }

    method Cancel(callback: bool) returns (raised: bool)
      modifies this
      ensures Outcome(Current(), raised) == StepOutcome(old(Current()), Event.Cancel(callback))
    {
      cancelCallback := callback;
      if !Live(phase) && !phase.Initializing? {
        return true;
      }
      phase := Cancelling;
      ClearAllTimers();
      disconnects := disconnects + [ForCancel];
      return false;
    }

    // ----- requests -----

    method SetQueryTimer()
      modifies this
      ensures Current() == ArmQueryTimer(old(Current()))
    {
      if queryTimer.Armed? {
        overwritten := overwritten + 1;
      }
      queryTimer := Armed;
    }

    method ClearAllTimers()
      modifies this
      ensures Current() == ClearTimers(old(Current()))
    {
      if !queryTimer.Unset? {
        queryTimer := Stopped;
      }
      if !pollingTimer.Unset? {
        pollingTimer := Stopped;
      }
    }

    /** A request and its topic are filed in the two tables, and the request goes out. */
    method SendRequest(requestId: RequestId, topic: string, handler: Handler, operationId: Option<string>)
      modifies this`operations, this`pendingRequests, this`sent
      ensures operations == old(operations)[requestId := topic]
      ensures pendingRequests == old(pendingRequests)[requestId := handler]
      ensures sent == old(sent) + [Sent(requestId, operationId)]
    {
      operations := operations[requestId := topic];
      pendingRequests := pendingRequests[requestId := handler];
      sent := sent + [Sent(requestId, operationId)];
    }

    method SendRegisterRequest(requestId: RequestId)
      modifies this
      ensures Current() == PollingModel.SendRegisterRequest(old(Current()), requestId)
    {
      SetQueryTimer();
      SendRequest(requestId, RegisterTopic(requestId), OnRegisterResponse, None);
    }

    method TriggerRegisterRequest(requestId: RequestId) returns (raised: bool)
      modifies this
      ensures Outcome(Current(), raised) == TrigSendRegisterRequest(old(Current()), requestId)
    {
      raised := !phase.Initializing? && !phase.WaitingToPoll?;
      if !raised {
        SendRegisterRequest(requestId);
        phase := Registering;
      }
    }

    method QueryOperationStatus(requestId: RequestId, operationId: string) returns (raised: bool)
      modifies this
      ensures Outcome(Current(), raised) == TrigPoll(old(Current()), requestId, operationId)
    {
      if !phase.WaitingToPoll? {
        return !phase.Cancelling?;
      }
      phase := Polling;
      SetQueryTimer();
      SendRequest(requestId, QueryTopic(requestId, operationId), OnQueryResponse, Some(operationId));
      return false;
    }

    method OnSubscribeCompleted(requestId: RequestId) returns (raised: bool)
      modifies this
      ensures Outcome(Current(), raised) == StepOutcome(old(Current()), Subscribed(requestId))
    {
      raised := false;
      if subscribing {
        subscribing := false;
        raised := TriggerRegisterRequest(requestId);
      }
    }

    // ----- transitions out of a live phase -----

    method WaitForInterval(operationId: Option<string>, retryAfter: RetryAfter) returns (raised: bool)
      modifies this
      ensures Outcome(Current(), raised) == TrigWait(old(Current()), operationId, retryAfter)
    {
      if !phase.Registering? && !phase.Polling? {
        return !phase.Cancelling?;
      }
      phase := WaitingToPoll;
      if retryAfter.Malformed? {
        return true;
      }
      if pollingTimer.Armed? {
        overwritten := overwritten + 1;
      }
      pollingTimer := Armed;
      pollFor := operationId;
      return false;
    }

    method CallError() returns (raised: bool)
      modifies this
      ensures Outcome(Current(), raised) == TrigError(old(Current()))
    {
      if !Live(phase) {
        return !phase.Cancelling?;
      }
      phase := Error;
      ClearAllTimers();
      disconnects := disconnects + [ForError];
      return false;
    }

    method CallComplete() returns (raised: bool)
      modifies this
      ensures Outcome(Current(), raised) == TrigComplete(old(Current()))
    {
      if !Live(phase) {
        return true;
      }
      phase := Completed;
      ClearAllTimers();
      disconnects := disconnects + [ForRegister];
      return false;
    }

    // ----- responses -----

    method ReceiveResponse(requestId: RequestId, status: Option<int>, retryAfter: RetryAfter, body: Body)
      returns (raised: bool)
      modifies this
      ensures Outcome(Current(), raised) == StepOutcome(old(Current()), Response(requestId, status, retryAfter, body))
    {
      raised := false;
      if requestId in pendingRequests {
        raised := RunHandler(pendingRequests[requestId], requestId, status, retryAfter, Read(body));
        if !raised {
          pendingRequests := pendingRequests - {requestId};
        }
      }
    }

    method RunHandler(
        handler: Handler, requestId: RequestId, status: Option<int>, retryAfter: RetryAfter, reply: Reply)
      returns (raised: bool)
      modifies this
      ensures Outcome(Current(), raised) ==
              PollingModel.RunHandler(old(Current()), handler, requestId, status, retryAfter, reply)
    {
      match handler
      case OnRegisterResponse => raised := OnRegisterResponseReceived(requestId, status, retryAfter, reply);
      case OnQueryResponse => raised := OnQueryResponseReceived(requestId, status, retryAfter, reply);
    }

    method OnRegisterResponseReceived(requestId: RequestId, status: Option<int>, retryAfter: RetryAfter, reply: Reply)
      returns (raised: bool)
      modifies this
      ensures Outcome(Current(), raised) == OnRegister(old(Current()), requestId, status, retryAfter, reply)
    {
      queryTimer := Stop(queryTimer);
      if status.None? {
        return true;
      }
      if status.value >= 429 {
        if requestId !in operations {
          return true;
        }
        operations := operations - {requestId};
        raised := WaitForInterval(None, retryAfter);
      } else if status.value >= 300 {
        registrationError := Some(BadReply);
        raised := CallError();
      } else {
        raised := ProcessSuccessfulResponse(requestId, retryAfter, reply);
      }
    }

    method OnQueryResponseReceived(requestId: RequestId, status: Option<int>, retryAfter: RetryAfter, reply: Reply)
      returns (raised: bool)
      modifies this
      ensures Outcome(Current(), raised) == OnQuery(old(Current()), requestId, status, retryAfter, reply)
    {
      queryTimer := Stop(queryTimer);
      pollingTimer := Stop(pollingTimer);
      ghost var s := old(Current());
      assert Current() == s.(queryTimer := Stop(s.queryTimer), pollingTimer := Stop(s.pollingTimer));
      if status.None? {
        return true;
      }
      if status.value >= 429 {
        if requestId in operations {
          raised := RetryQuery(requestId, retryAfter);
        } else {
          registrationError := Some(NeverSent);
          raised := CallError();
        }
      } else if status.value >= 300 {
        registrationError := Some(BadReply);
        raised := CallError();
      } else {
        raised := ProcessSuccessfulResponse(requestId, retryAfter, reply);
      }
    }

    /** The throttled path: the operation id is read off the topic that was filed under the request. */
    method RetryQuery(requestId: RequestId, retryAfter: RetryAfter) returns (raised: bool)
      requires requestId in operations
      modifies this
      ensures var s := old(Current());
              Outcome(Current(), raised) ==
              OnThrottledQuery(s.(operations := s.operations - {requestId}), Recover(s.operations[requestId]), retryAfter)
    {
      var operationId := Recover(operations[requestId]);
      operations := operations - {requestId};
      if operationId.None? {
        return true;
      }
      raised := WaitForInterval(operationId, retryAfter);
    }

    method ProcessSuccessfulResponse(requestId: RequestId, retryAfter: RetryAfter, reply: Reply) returns (raised: bool)
      modifies this
      ensures Outcome(Current(), raised) == OnSuccess(old(Current()), requestId, retryAfter, reply)
    {
      if requestId !in operations {
        return true;
      }
      operations := operations - {requestId};
      if reply.Undecodable? {
        return true;
      }
      if reply.status == Some("assigning") {
        raised := WaitForInterval(reply.operation, retryAfter);
      } else if reply.status == Some("assigned") || reply.status == Some("failed") {
        if !reply.completes {
          return true;
        }
        registrationResult := Some(reply);
        raised := CallComplete();
      } else {
        registrationError := Some(OtherFailure);
        raised := CallError();
      }
    }

    // ----- timers and disconnects -----

    method TimeUpQuery() returns (raised: bool)
      modifies this
      ensures Outcome(Current(), raised) == StepOutcome(old(Current()), QueryTimeout)
    {
      raised := false;
      if queryTimer.Armed? {
        queryTimer := Stopped;
        registrationError := Some(TimedOut);
        raised := CallError();
      }
    }

    method TimeUpPolling(requestId: RequestId) returns (raised: bool)
      modifies this
      ensures Outcome(Current(), raised) == StepOutcome(old(Current()), PollTimeout(requestId))
    {
      raised := false;
      if pollingTimer.Armed? {
        pollingTimer := Stopped;
        if pollFor.None? {
          raised := TriggerRegisterRequest(requestId);
        } else {
          raised := QueryOperationStatus(requestId, pollFor.value);
        }
      }
    }

    method OnDisconnectCompleted(index: nat)
      modifies this
      ensures Outcome(Current(), false) == StepOutcome(old(Current()), DisconnectDone(index))
    {
      if index < |disconnects| {
        var goal := disconnects[index];
        disconnects := disconnects[..index] + disconnects[index + 1..];
        if goal.ForCancel? {
          if cancelCallback {
            cancelCallback := false;
            calls := calls + [CancelDone];
          }
        } else if registerCallback {
          registerCallback := false;
          calls := calls + [if goal.ForError? then RegisterDone(None, registrationError)
                            else RegisterDone(registrationResult, None)];
        }
      }
    }
  }
}
