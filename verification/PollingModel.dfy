/**
 The provisioning polling machine together with its request/response provider, one task at a time:
 user calls, subscription and disconnect completions, responses, and the two timers.
 */
module PollingModel {
  import opened Options
  import opened PollingReplies
  import opened PollingTopics

  type RequestId = string

  datatype Phase =
    | Disconnected | Initializing | Registering | WaitingToPoll | Polling | Completed | Error | Cancelling

  /** A timer slot: never set, running, or stopped (cancelled or fired). */
  datatype Timer = Unset | Armed | Stopped

  datatype Handler = OnRegisterResponse | OnQueryResponse

  /** Whose completion a disconnect reports to. */
  datatype Goal = ForRegister | ForError | ForCancel

  datatype Failure = TimedOut | BadReply | NeverSent | OtherFailure

  /** A request that went out; a registration request carries no operation id. */
  datatype Sent = Sent(request: RequestId, operation: Option<string>)

  datatype Call = RegisterDone(result: Option<Reply>, error: Option<Failure>) | CancelDone

  datatype State = State(
    phase: Phase,
    queryTimer: Timer,
    pollingTimer: Timer,
    pollFor: Option<string>,              // operation id in the closure of the polling timer
    operations: map<RequestId, string>,   // _operations: request id to topic
    pending: map<RequestId, Handler>,     // RequestResponseProvider._pending_requests
    subscribing: bool,                    // enable_responses is under way
    registerCallback: bool,
    cancelCallback: bool,
    error: Option<Failure>,
    result: Option<Reply>,
    disconnects: seq<Goal>,               // disconnects under way
    sent: seq<Sent>,                      // log of requests
    calls: seq<Call>,                     // log of user callbacks
    overwritten: nat)                     // log: timers replaced while they were running

  const INITIAL := State(Disconnected, Unset, Unset, None, map[], map[], false, false, false, None, None, [], [], [], 0)

  /** A task may end in an exception; what it did before stays done. */
  datatype Outcome = Outcome(state: State, raised: bool)

  function Fine(s: State): Outcome {
    Outcome(s, false)
  }

  function Raise(s: State): Outcome {
    Outcome(s, true)
  }

  datatype Event =
    | Register(callback: bool)
    | Cancel(callback: bool)
    | Subscribed(newId: RequestId)
    | Response(request: RequestId, status: Option<int>, retry: RetryAfter, body: Body)   // no status: not a number
    | QueryTimeout
    | PollTimeout(newId: RequestId)
    | DisconnectDone(index: nat)

  // ----- timers -----

  function Stop(timer: Timer): Timer {
    if timer.Unset? then Unset else Stopped
  }

  function ClearTimers(s: State): State {
    s.(queryTimer := Stop(s.queryTimer), pollingTimer := Stop(s.pollingTimer))
  }

  function ArmQueryTimer(s: State): State {
    s.(queryTimer := Armed, overwritten := s.overwritten + if s.queryTimer.Armed? then 1 else 0)
  }

  function ArmPollingTimer(s: State, operation: Option<string>): State {
    s.(pollingTimer := Armed, pollFor := operation,
       overwritten := s.overwritten + if s.pollingTimer.Armed? then 1 else 0)
  }

  // ----- transitions -----

  function RegisterTopic(request: RequestId): string {
    "$dps/registrations/PUT/iotdps-register/?$rid=" + request
  }

  function TrigRegister(s: State): Outcome {
    match s.phase
    case Disconnected => Fine(s.(phase := Initializing, subscribing := true))
    case Error => Fine(s.(phase := Initializing, subscribing := true))
    case Registering => Fine(s)
    case _ => Raise(s)
  }

  function SendRegisterRequest(s: State, newId: RequestId): State {
    var s0 := ArmQueryTimer(s);
    s0.(operations := s0.operations[newId := RegisterTopic(newId)],
        pending := s0.pending[newId := OnRegisterResponse],
        sent := s0.sent + [Sent(newId, None)])
  }

  function TrigSendRegisterRequest(s: State, newId: RequestId): Outcome {
    if s.phase.Initializing? || s.phase.WaitingToPoll? then
      Fine(SendRegisterRequest(s, newId).(phase := Registering))
    else
      Raise(s)
  }

  function TrigPoll(s: State, newId: RequestId, operation: string): Outcome {
    match s.phase
    case WaitingToPoll =>
      var s0 := ArmQueryTimer(s.(phase := Polling));
      Fine(s0.(operations := s0.operations[newId := QueryTopic(newId, operation)],
               pending := s0.pending[newId := OnQueryResponse],
               sent := s0.sent + [Sent(newId, Some(operation))]))
    case Cancelling => Fine(s)
    case _ => Raise(s)
  }

  /** The phase has changed when the interval is read; if that raises, no timer is made. */
  function WaitForInterval(s: State, operation: Option<string>, retry: RetryAfter): Outcome {
    if retry.Malformed? then Raise(s) else Fine(ArmPollingTimer(s, operation))
  }

  function TrigWait(s: State, operation: Option<string>, retry: RetryAfter): Outcome {
    match s.phase
    case Registering => WaitForInterval(s.(phase := WaitingToPoll), operation, retry)
    case Polling => WaitForInterval(s.(phase := WaitingToPoll), operation, retry)
    case Cancelling => Fine(s)
    case _ => Raise(s)
  }

  predicate Live(phase: Phase) {
    phase.Registering? || phase.WaitingToPoll? || phase.Polling?
  }

  function TrigComplete(s: State): Outcome {
    if Live(s.phase) then
      var s0 := ClearTimers(s.(phase := Completed));
      Fine(s0.(disconnects := s0.disconnects + [ForRegister]))
    else
      Raise(s)
  }

  function TrigError(s: State): Outcome {
    if Live(s.phase) then
      var s0 := ClearTimers(s.(phase := Error));
      Fine(s0.(disconnects := s0.disconnects + [ForError]))
    else if s.phase.Cancelling? then
      Fine(s)
    else
      Raise(s)
  }

  function TrigCancel(s: State): Outcome {
    if Live(s.phase) || s.phase.Initializing? then
      var s0 := ClearTimers(s.(phase := Cancelling));
      Fine(s0.(disconnects := s0.disconnects + [ForCancel]))
    else
      Raise(s)   // "There is no registration process to cancel", or no such transition
  }

  // ----- responses -----

  function OnRegister(s: State, request: RequestId, status: Option<int>, retry: RetryAfter, reply: Reply): Outcome {
    var s0 := s.(queryTimer := Stop(s.queryTimer));
    if status.None? then
      Raise(s0)
    else if status.value >= 429 then
      if request !in s0.operations then Raise(s0)
      else TrigWait(s0.(operations := s0.operations - {request}), None, retry)
    else if status.value >= 300 then
      TrigError(s0.(error := Some(BadReply)))
    else
      OnSuccess(s0, request, retry, reply)
  }

  function OnQuery(s: State, request: RequestId, status: Option<int>, retry: RetryAfter, reply: Reply): Outcome {
    var s0 := s.(queryTimer := Stop(s.queryTimer), pollingTimer := Stop(s.pollingTimer));
    if status.None? then
      Raise(s0)
    else if status.value >= 429 then
      if request in s0.operations then
        OnThrottledQuery(s0.(operations := s0.operations - {request}), Recover(s0.operations[request]), retry)
      else
        TrigError(s0.(error := Some(NeverSent)))
    else if status.value >= 300 then
      TrigError(s0.(error := Some(BadReply)))
    else
      OnSuccess(s0, request, retry, reply)
  }

  /** The throttled query path, given the operation id recovered from the topic, if that worked. */
  function OnThrottledQuery(s: State, recovered: Option<string>, retry: RetryAfter): Outcome {
    if recovered.Some? then TrigWait(s, recovered, retry) else Raise(s)
  }

  /** _process_successful_response. */
  function OnSuccess(s: State, request: RequestId, retry: RetryAfter, reply: Reply): Outcome {
    if request !in s.operations then Raise(s)
    else
      var s0 := s.(operations := s.operations - {request});
      match reply
      case Undecodable => Raise(s0)
      case Decoded(operation, status, completes) =>
        if status == Some("assigning") then TrigWait(s0, operation, retry)
        else if status == Some("assigned") || status == Some("failed") then
          if completes then TrigComplete(s0.(result := Some(reply))) else Raise(s0)
        else TrigError(s0.(error := Some(OtherFailure)))
  }

  function RunHandler(
      s: State, handler: Handler, request: RequestId, status: Option<int>, retry: RetryAfter, reply: Reply): Outcome {
    if handler.OnRegisterResponse? then OnRegister(s, request, status, retry, reply)
    else OnQuery(s, request, status, retry, reply)
  }

  /** RequestResponseProvider._receive_response: an exception keeps the request in the table. */
  function OnResponse(s: State, request: RequestId, status: Option<int>, retry: RetryAfter, reply: Reply): Outcome {
    if request !in s.pending then Fine(s)
    else
      var o := RunHandler(s, s.pending[request], request, status, retry, reply);
      if o.raised then o else Fine(o.state.(pending := o.state.pending - {request}))
  }

  // ----- timers that fire, disconnects that complete -----

  function OnQueryTimeout(s: State): Outcome {
    if s.queryTimer.Armed? then TrigError(s.(queryTimer := Stopped, error := Some(TimedOut))) else Fine(s)
  }

  function OnPollTimeout(s: State, newId: RequestId): Outcome {
    if s.pollingTimer.Armed? then
      var s0 := s.(pollingTimer := Stopped);
      match s.pollFor
      case None => TrigSendRegisterRequest(s0, newId)
      case Some(operation) => TrigPoll(s0, newId, operation)
    else
      Fine(s)
  }

  function OnDisconnected(s: State, index: nat): Outcome {
    if index >= |s.disconnects| then Fine(s)
    else
      var s0 := s.(disconnects := s.disconnects[..index] + s.disconnects[index + 1..]);
      match s.disconnects[index]
      case ForCancel =>
        if s.cancelCallback then Fine(s0.(cancelCallback := false, calls := s0.calls + [CancelDone])) else Fine(s0)
      case ForError =>
        if s.registerCallback then
          Fine(s0.(registerCallback := false, calls := s0.calls + [RegisterDone(None, s.error)]))
        else Fine(s0)
      case ForRegister =>
        if s.registerCallback then
          Fine(s0.(registerCallback := false, calls := s0.calls + [RegisterDone(s.result, None)]))
        else Fine(s0)
  }

  function StepOutcome(s: State, event: Event): Outcome {
    match event
    case Register(callback) => TrigRegister(s.(registerCallback := callback))
    case Cancel(callback) => TrigCancel(s.(cancelCallback := callback))
    case Subscribed(newId) =>
      if s.subscribing then TrigSendRegisterRequest(s.(subscribing := false), newId) else Fine(s)
    case Response(request, status, retry, body) => OnResponse(s, request, status, retry, Read(body))
    case QueryTimeout => OnQueryTimeout(s)
    case PollTimeout(newId) => OnPollTimeout(s, newId)
    case DisconnectDone(index) => OnDisconnected(s, index)
  }

  function Step(s: State, event: Event): State {
    StepOutcome(s, event).state
  }

  function Run(events: seq<Event>): State {
    if events == [] then INITIAL else Step(Run(events[..|events| - 1]), events[|events| - 1])
  }
}
