/**
 Which end a registration comes to, and what its caller hears, told from the events alone: the replies to
 the request in flight, the query timer, a cancellation, and the end of the disconnect.
 */
module PollingOutcomes {
  import opened Options
  import opened PollingReplies
  import opened PollingTopics
  import opened PollingModel
  import opened PollingTheorems

  // ----- the verdict -----

  datatype Verdict = Undecided | Won(reply: Reply) | Lost(failure: Failure) | CalledOff

  predicate IsFinal(reply: Reply) {
    reply.Decoded? && (reply.status == Some("assigned") || reply.status == Some("failed"))
  }

  /** A request is in flight and this is a reply to it. */
  predicate IsAnswer(s: State, event: Event) {
    event.Response? && event.request in s.pending && (s.phase.Registering? || s.phase.Polling?)
  }

  /** A reply decides the registration unless it is a throttle or says "assigning", or breaks the machine. */
  function JudgeReply(status: Option<int>, reply: Reply): Verdict {
    if status.None? || status.value >= 429 then Undecided
    else if status.value >= 300 then Lost(BadReply)
    else if IsFinal(reply) then Won(reply)
    else if reply.Decoded? && reply.status != Some("assigning") then Lost(OtherFailure)
    else Undecided
  }

  /** A late reply to a request that timed out may still replace the failure. */
  function LateFailure(s: State, event: Event, failure: Failure): Failure
    requires event.Response? && event.request in s.pending
  {
    var reply, known := Read(event.body), event.request in s.operations;
    if event.status.None? then failure
    else if event.status.value >= 429 then
      if s.pending[event.request].OnQueryResponse? && !known then NeverSent else failure
    else if event.status.value >= 300 then BadReply
    else if known && reply.Decoded? && !IsFinal(reply) && reply.status != Some("assigning") then OtherFailure
    else failure
  }

  function Judge(s: State, event: Event, verdict: Verdict): Verdict {
    match verdict
    case Undecided =>
      if IsAnswer(s, event) then JudgeReply(event.status, Read(event.body))
      else if event.QueryTimeout? && (s.phase.Registering? || s.phase.Polling?) then Lost(TimedOut)
      else if event.Cancel? && !s.phase.Disconnected? then CalledOff
      else Undecided
    case Lost(failure) =>
      if event.Response? && event.request in s.pending then Lost(LateFailure(s, event, failure)) else verdict
    case Won(_) => verdict
    case CalledOff => verdict
  }

  /** What has been decided after these events: the first event that decides, and late replies to a timed-out request. */
  function VerdictOf(events: seq<Event>): Verdict {
    if events == [] then Undecided
    else
      var before, last := events[..|events| - 1], events[|events| - 1];
      Judge(Run(before), last, VerdictOf(before))
  }

  /** The machine stands where the verdict puts it, and holds the reply or the failure it is about. */
  predicate Agrees(s: State, verdict: Verdict) {
    match verdict
    case Undecided => Live(s.phase) || s.phase.Disconnected? || s.phase.Initializing?
    case Won(reply) => s.phase.Completed? && s.result == Some(reply) && Empty(s.pending)
    case Lost(failure) => s.phase.Error? && s.error == Some(failure)
    case CalledOff => s.phase.Cancelling?
  }

  // ----- the phase after every event -----

  /** The phase an event leads to in a run that nothing derails. */
  function NextPhase(s: State, event: Event, latest: Option<string>): Phase {
    match event
    case Register(_) => if s.phase.Disconnected? then Initializing else s.phase
    case Cancel(_) => if Live(s.phase) || s.phase.Initializing? then Cancelling else s.phase
    case Subscribed(_) => if s.phase.Initializing? then Registering else s.phase
    case QueryTimeout => if s.phase.Registering? || s.phase.Polling? then Error else s.phase
    case PollTimeout(_) =>
      if s.phase.WaitingToPoll? then (if latest.None? then Registering else Polling) else s.phase
    case Response(_, status, _, body) =>
      if !IsAnswer(s, event) then s.phase
      else
        (match JudgeReply(status, Read(body))
         case Won(_) => Completed
         case Lost(_) => Error
         case _ => WaitingToPoll)
    case DisconnectDone(_) => s.phase
  }

  /** One step does what the verdict and the table of phases say, and starts a disconnect exactly when it decides. */
  predicate StepAgrees(s: State, event: Event, latest: Option<string>, verdict: Verdict, t: State) {
    var next := Judge(s, event, verdict);
    t.phase == NextPhase(s, event, latest) && Agrees(t, next) &&
    (verdict.Undecided? && !next.Undecided? ==> |t.disconnects| == 1) &&
    (verdict.Undecided? == next.Undecided? && !event.DisconnectDone? ==> t.disconnects == s.disconnects)
  }

  lemma SuccessDecides(s: State, request: RequestId, retry: RetryAfter, reply: Reply)
    requires s.phase.Registering? || s.phase.Polling?
    requires request in s.operations && reply.Decoded? && s.disconnects == []
    requires !IsBadCompletion(reply) && !(IsAssigning(reply) && retry.Malformed?)
    ensures var o := OnSuccess(s, request, retry, reply);
            !o.raised && o.state.pending == s.pending &&
            if IsAssigning(reply) then o.state.phase.WaitingToPoll? && o.state.disconnects == []
            else if IsFinal(reply) then
              o.state.phase.Completed? && o.state.result == Some(reply) && |o.state.disconnects| == 1
            else
              o.state.phase.Error? && o.state.error == Some(OtherFailure) && |o.state.disconnects| == 1
  {
  }

  lemma WaitDecidesNothing(s: State, operation: Option<string>, retry: RetryAfter)
    requires (s.phase.Registering? || s.phase.Polling?) && !retry.Malformed?
    ensures var o := TrigWait(s, operation, retry);
            !o.raised && o.state.phase.WaitingToPoll? && o.state.disconnects == s.disconnects &&
            o.state.pending == s.pending
  {
  }

  /** What a reply to the request in flight does, unless it derails the machine. */
  predicate AnswerAgrees(s: State, request: RequestId, status: Option<int>, reply: Reply, o: Outcome) {
    !o.raised && o.state.pending == s.pending &&
    match JudgeReply(status, reply)
    case Undecided => o.state.phase.WaitingToPoll? && o.state.disconnects == []
    case Won(_) => o.state.phase.Completed? && o.state.result == Some(reply) && |o.state.disconnects| == 1
    case Lost(failure) => o.state.phase.Error? && o.state.error == Some(failure) && |o.state.disconnects| == 1
    case CalledOff => false
  }

  lemma RegisterAnswerAgrees(s: State, request: RequestId, status: Option<int>, retry: RetryAfter, reply: Reply)
    requires s.phase.Registering? && request in s.operations && s.disconnects == []
    requires !DerailingReply(Registering, status, retry, reply, None)
    ensures AnswerAgrees(s, request, status, reply, OnRegister(s, request, status, retry, reply))
  {
    var s0 := s.(queryTimer := Stop(s.queryTimer));
    if status.value >= 429 {
      WaitDecidesNothing(s0.(operations := s0.operations - {request}), None, retry);
    } else if status.value < 300 {
      SuccessDecides(s0, request, retry, reply);
    }
  }

  lemma QueryAnswerAgrees(
      s: State, request: RequestId, status: Option<int>, retry: RetryAfter, reply: Reply, latest: string)
    requires s.phase.Polling? && s.disconnects == [] && PlainRequest(request)
    requires request in s.operations && s.operations[request] == QueryTopic(request, latest)
    requires !DerailingReply(Polling, status, retry, reply, Some(latest))
    ensures AnswerAgrees(s, request, status, reply, OnQuery(s, request, status, retry, reply))
  {
    var s0 := TimersStopped(s);
    if status.value >= 429 {
      var recovered := Recover(s.operations[request]);
      assert recovered == Some(latest) by { RecoverIff(request, latest); }
      WaitDecidesNothing(s0.(operations := s0.operations - {request}), recovered, retry);
      assert OnQuery(s, request, status, retry, reply) ==
             TrigWait(s0.(operations := s0.operations - {request}), recovered, retry);
    } else if status.value < 300 {
      SuccessDecides(s0, request, retry, reply);
    }
  }

  lemma AnswerStepAgrees(s: State, event: Event, latest: Option<string>)
    requires Inv(s, latest) && IsAnswer(s, event) && !Derails(s, event, latest)
    ensures StepAgrees(s, event, latest, Undecided, Step(s, event))
  {
    var Response(request, status, retry, body) := event;
    var reply := Read(body);
    if s.phase.Registering? {
      assert Outstanding(s, request, OnRegisterResponse, RegisterTopic(request));
      RegisterAnswerAgrees(s, request, status, retry, reply);
    } else {
      assert Outstanding(s, request, OnQueryResponse, QueryTopic(request, latest.value));
      QueryAnswerAgrees(s, request, status, retry, reply, latest.value);
    }
    assert Empty(s.pending - {request});
  }

  lemma LateSuccess(s: State, request: RequestId, retry: RetryAfter, reply: Reply)
    requires s.phase.Error?
    ensures var t := OnSuccess(s, request, retry, reply).state;
            t.phase.Error? && t.disconnects == s.disconnects &&
            t.error == if request in s.operations && reply.Decoded? && !IsFinal(reply) && !IsAssigning(reply)
                       then Some(OtherFailure) else s.error
  {
  }

  lemma LateThrottle(s: State, operation: Option<string>, retry: RetryAfter)
    requires s.phase.Error?
    ensures TrigWait(s, operation, retry) == Raise(s) && OnThrottledQuery(s, operation, retry) == Raise(s)
  {
  }

  lemma LateRegisterAnswer(s: State, request: RequestId, status: Option<int>, retry: RetryAfter, reply: Reply)
    requires s.phase.Error?
    ensures var t := OnRegister(s, request, status, retry, reply).state;
            t.phase.Error? && t.disconnects == s.disconnects &&
            t.error == if status.Some? && 300 <= status.value < 429 then Some(BadReply)
                       else if Succeeded(status) then OnSuccess(s, request, retry, reply).state.error
                       else s.error
  {
    var s0 := s.(queryTimer := Stop(s.queryTimer));
    LateSuccess(s, request, retry, reply);
    LateSuccess(s0, request, retry, reply);
    LateThrottle(s0.(operations := s0.operations - {request}), None, retry);
  }

  lemma LateQueryAnswer(s: State, request: RequestId, status: Option<int>, retry: RetryAfter, reply: Reply)
    requires s.phase.Error?
    ensures var t := OnQuery(s, request, status, retry, reply).state;
            t.phase.Error? && t.disconnects == s.disconnects &&
            t.error == if status.Some? && 300 <= status.value < 429 then Some(BadReply)
                       else if Succeeded(status) then OnSuccess(s, request, retry, reply).state.error
                       else if status.Some? && request !in s.operations then Some(NeverSent)
                       else s.error
  {
    var s0 := TimersStopped(s);
    if Succeeded(status) {
      LateSuccess(s, request, retry, reply);
      LateSuccess(s0, request, retry, reply);
    } else if Throttled(status) && request in s.operations {
      var s1, recovered := s0.(operations := s0.operations - {request}), Recover(s.operations[request]);
      LateThrottle(s1, recovered, retry);
      assert OnQuery(s, request, status, retry, reply) == OnThrottledQuery(s1, recovered, retry);
    }
  }

  lemma LateAnswer(s: State, event: Event, failure: Failure)
    requires s.phase.Error? && s.error == Some(failure) && event.Response? && event.request in s.pending
    ensures var t := Step(s, event);
            t.phase.Error? && t.disconnects == s.disconnects && t.error == Some(LateFailure(s, event, failure))
  {
    var Response(request, status, retry, body) := event;
    LateSuccess(s, request, retry, Read(body));
    if s.pending[request].OnRegisterResponse? {
      LateRegisterAnswer(s, request, status, retry, Read(body));
    } else {
      LateQueryAnswer(s, request, status, retry, Read(body));
    }
  }

  lemma ResponseAgrees(s: State, event: Event, latest: Option<string>, verdict: Verdict)
    requires Inv(s, latest) && event.Response? && !Derails(s, event, latest) && Agrees(s, verdict)
    ensures StepAgrees(s, event, latest, verdict, Step(s, event))
  {
    if IsAnswer(s, event) {
      AnswerStepAgrees(s, event, latest);
    } else if event.request in s.pending {
      if verdict.Lost? {
        LateAnswer(s, event, verdict.failure);
      } else {
        ResponseAfterTheEnd(s, event.request, event.status, event.retry, Read(event.body));
      }
    }
  }

  lemma CallAgrees(s: State, event: Event, latest: Option<string>, verdict: Verdict)
    requires Inv(s, latest) && Allowed(s, event) && Agrees(s, verdict) && (event.Register? || event.Cancel?)
    ensures StepAgrees(s, event, latest, verdict, Step(s, event))
  {
  }

  lemma TimerAgrees(s: State, event: Event, latest: Option<string>, verdict: Verdict)
    requires Inv(s, latest) && Agrees(s, verdict) && (event.QueryTimeout? || event.PollTimeout?)
    ensures StepAgrees(s, event, latest, verdict, Step(s, event))
  {
  }

  lemma SubscribedAgrees(s: State, event: Event, latest: Option<string>, verdict: Verdict)
    requires Inv(s, latest) && Agrees(s, verdict) && event.Subscribed?
    ensures StepAgrees(s, event, latest, verdict, Step(s, event))
  {
  }

  lemma DisconnectAgrees(s: State, event: Event, latest: Option<string>, verdict: Verdict)
    requires Inv(s, latest) && Agrees(s, verdict) && event.DisconnectDone?
    ensures StepAgrees(s, event, latest, verdict, Step(s, event))
  {
  }

  lemma EveryStepAgrees(s: State, event: Event, latest: Option<string>, verdict: Verdict)
    requires Inv(s, latest) && Allowed(s, event) && !Derails(s, event, latest) && Agrees(s, verdict)
    ensures StepAgrees(s, event, latest, verdict, Step(s, event))
  {
    match event
    case Register(_) => CallAgrees(s, event, latest, verdict);
    case Cancel(_) => CallAgrees(s, event, latest, verdict);
    case Subscribed(_) => SubscribedAgrees(s, event, latest, verdict);
    case Response(_, _, _, _) => ResponseAgrees(s, event, latest, verdict);
    case QueryTimeout => TimerAgrees(s, event, latest, verdict);
    case PollTimeout(_) => TimerAgrees(s, event, latest, verdict);
    case DisconnectDone(_) => DisconnectAgrees(s, event, latest, verdict);
  }

  /**
   In every good run a registration has completed if and only if the verdict is a final reply, and holds that
   reply; it has failed if and only if the verdict is a failure, and holds that failure; it is being called
   off if and only if it was cancelled before.
   */
  lemma {:induction false} RunAgreesWithVerdict(events: seq<Event>)
    requires GoodRun(events)
    ensures Agrees(Run(events), VerdictOf(events))
    decreases |events|
  {
    if events != [] {
      var n := |events| - 1;
      RunAgreesWithVerdict(events[..n]);
      RunKeepsInv(events[..n]);
      EveryStepAgrees(Run(events[..n]), events[n], Latest(events[..n]), VerdictOf(events[..n]));
    }
  }

  /** In every good run each event leads to the phase the table says. */
  lemma PhasesFollowTable(events: seq<Event>, event: Event)
    requires GoodRun(events + [event])
    ensures Run(events + [event]).phase == NextPhase(Run(events), event, Latest(events))
  {
    RunOneMore(events, event);
    RunAgreesWithVerdict(events);
    RunKeepsInv(events);
    EveryStepAgrees(Run(events), event, Latest(events), VerdictOf(events));
  }

  // ----- what the caller hears -----

  /** Whether the last call of `register` came with a callback. */
  function RegisterCallback(events: seq<Event>): bool {
    events != [] &&
    var last := events[|events| - 1];
    if last.Register? then last.callback else RegisterCallback(events[..|events| - 1])
  }

  /** Whether the last call of `cancel` came with a callback. */
  function CancelCallback(events: seq<Event>): bool {
    events != [] &&
    var last := events[|events| - 1];
    if last.Cancel? then last.callback else CancelCallback(events[..|events| - 1])
  }

  /** The registration has been decided and the disconnect that follows has not come to its end. */
  predicate Disconnecting(events: seq<Event>) {
    events != [] &&
    var before, last := events[..|events| - 1], events[|events| - 1];
    if VerdictOf(before).Undecided? then !VerdictOf(events).Undecided?
    else Disconnecting(before) && last != DisconnectDone(0)
  }

  /** The callback that runs when the disconnect has come to its end, if there is one. */
  function Hears(events: seq<Event>): seq<Call> {
    match VerdictOf(events)
    case Undecided => []
    case Won(reply) => if RegisterCallback(events) then [RegisterDone(Some(reply), None)] else []
    case Lost(failure) => if RegisterCallback(events) then [RegisterDone(None, Some(failure))] else []
    case CalledOff => if CancelCallback(events) then [CancelDone] else []
  }

  function CallsOf(events: seq<Event>): seq<Call> {
    if events == [] then []
    else
      var before, last := events[..|events| - 1], events[|events| - 1];
      CallsOf(before) + if Disconnecting(before) && last == DisconnectDone(0) then Hears(before) else []
  }

  /** The calls so far, and what the next one depends on. */
  predicate CallsAgree(s: State, events: seq<Event>) {
    s.calls == CallsOf(events) && |s.disconnects| == (if Disconnecting(events) then 1 else 0) &&
    (s.calls == [] ==> s.registerCallback == RegisterCallback(events) && s.cancelCallback == CancelCallback(events))
  }

  predicate SameCalls(s: State, t: State) {
    t.calls == s.calls && t.registerCallback == s.registerCallback && t.cancelCallback == s.cancelCallback
  }

  lemma SuccessCallsNothing(s: State, request: RequestId, retry: RetryAfter, reply: Reply)
    ensures SameCalls(s, OnSuccess(s, request, retry, reply).state)
  {
  }

  lemma WaitCallsNothing(s: State, operation: Option<string>, retry: RetryAfter)
    ensures SameCalls(s, TrigWait(s, operation, retry).state)
  {
    assert SameCalls(s, ArmPollingTimer(s.(phase := WaitingToPoll), operation));
  }

  lemma RegisterReplyCallsNothing(s: State, request: RequestId, status: Option<int>, retry: RetryAfter, reply: Reply)
    ensures SameCalls(s, OnRegister(s, request, status, retry, reply).state)
  {
    var s0 := s.(queryTimer := Stop(s.queryTimer));
    SuccessCallsNothing(s0, request, retry, reply);
    WaitCallsNothing(s0.(operations := s0.operations - {request}), None, retry);
  }

  lemma ThrottleCallsNothing(s: State, recovered: Option<string>, retry: RetryAfter)
    ensures SameCalls(s, OnThrottledQuery(s, recovered, retry).state)
  {
    WaitCallsNothing(s, recovered, retry);
  }

  lemma QueryReplyCallsNothing(s: State, request: RequestId, status: Option<int>, retry: RetryAfter, reply: Reply)
    ensures SameCalls(s, OnQuery(s, request, status, retry, reply).state)
  {
    var s0 := TimersStopped(s);
    if Succeeded(status) {
      SuccessCallsNothing(s0, request, retry, reply);
    } else if Throttled(status) && request in s.operations {
      var s1, recovered := s0.(operations := s0.operations - {request}), Recover(s.operations[request]);
      ThrottleCallsNothing(s1, recovered, retry);
      assert OnQuery(s, request, status, retry, reply) == OnThrottledQuery(s1, recovered, retry);
    }
  }

  lemma ResponseCallsNothing(s: State, request: RequestId, status: Option<int>, retry: RetryAfter, reply: Reply)
    ensures SameCalls(s, OnResponse(s, request, status, retry, reply).state)
  {
    RegisterReplyCallsNothing(s, request, status, retry, reply);
    QueryReplyCallsNothing(s, request, status, retry, reply);
  }

  lemma SendCallsNothing(s: State, newId: RequestId)
    ensures SameCalls(s, TrigSendRegisterRequest(s, newId).state)
  {
    assert SameCalls(s, ArmQueryTimer(s));
  }

  lemma PollCallsNothing(s: State, newId: RequestId, operation: string)
    ensures SameCalls(s, TrigPoll(s, newId, operation).state)
  {
    assert SameCalls(s, ArmQueryTimer(s.(phase := Polling)));
  }

  lemma ErrorCallsNothing(s: State)
    ensures SameCalls(s, TrigError(s).state)
  {
  }

  lemma TimerCallsNothing(s: State, event: Event)
    requires event.QueryTimeout? || event.PollTimeout? || event.Subscribed?
    ensures SameCalls(s, Step(s, event))
  {
    match event
    case QueryTimeout =>
      ErrorCallsNothing(s.(queryTimer := Timer.Stopped, error := Some(TimedOut)));
    case Subscribed(newId) =>
      SendCallsNothing(s.(subscribing := false), newId);
    case PollTimeout(newId) =>
      var s0 := s.(pollingTimer := Timer.Stopped);
      SendCallsNothing(s0, newId);
      if s.pollFor.Some? { PollCallsNothing(s0, newId, s.pollFor.value); }
  }

  /** No event but the end of a disconnect runs a callback, and only `register` and `cancel` set one. */
  lemma OthersCallNothing(s: State, event: Event)
    requires !event.DisconnectDone?
    ensures var t := Step(s, event);
            t.calls == s.calls &&
            t.registerCallback == (if event.Register? then event.callback else s.registerCallback) &&
            t.cancelCallback == if event.Cancel? then event.callback else s.cancelCallback
  {
    match event
    case Response(request, status, retry, body) => ResponseCallsNothing(s, request, status, retry, Read(body));
    case Register(_) =>
    case Cancel(_) =>
    case _ => TimerCallsNothing(s, event);
  }

  lemma DisconnectHears(s: State, events: seq<Event>, latest: Option<string>, index: nat)
    requires Inv(s, latest) && Agrees(s, VerdictOf(events)) && CallsAgree(s, events)
    ensures var t := Step(s, DisconnectDone(index));
            t.calls == s.calls + (if Disconnecting(events) && index == 0 then Hears(events) else []) &&
            |t.disconnects| == (if Disconnecting(events) && index != 0 then 1 else 0) &&
            (t.calls == [] ==> t.registerCallback == s.registerCallback && t.cancelCallback == s.cancelCallback)
  {
  }

  /**
   In every good run the callbacks that have run are exactly these: once the disconnect after the verdict has
   ended, the register callback, if there is one, gets the final reply or the failure, or the cancel callback
   runs, if the registration was called off and there is one.
   */
  lemma {:induction false} CallersHearTheVerdict(events: seq<Event>)
    requires GoodRun(events)
    ensures CallsAgree(Run(events), events)
    decreases |events|
  {
    if events != [] {
      var n := |events| - 1;
      var before, last := events[..n], events[n];
      CallersHearTheVerdict(before);
      RunKeepsInv(before);
      RunAgreesWithVerdict(before);
      EveryStepAgrees(Run(before), last, Latest(before), VerdictOf(before));
      if last.DisconnectDone? {
        DisconnectHears(Run(before), before, Latest(before), last.index);
      } else {
        OthersCallNothing(Run(before), last);
      }
    }
  }

  // ----- the failure after a timeout -----

  /** A registration that times out and whose reply, a failure, comes before the disconnect has ended. */
  function LateReply(newId: RequestId, status: int, body: Body): seq<Event> {
    Registration(true, newId) + [QueryTimeout] + [Response(newId, Some(status), Absent, body)]
  }

  /** The caller is then told about the reply and not about the timeout. */
  lemma LateReplyReplacesTimeout(newId: RequestId, status: int, body: Body)
    requires PlainRequest(newId) && 300 <= status < 429
    ensures GoodRun(LateReply(newId, status, body)) && VerdictOf(LateReply(newId, status, body)) == Lost(BadReply)
  {
    var start, timeout, reply := Registration(true, newId), QueryTimeout, Response(newId, Some(status), Absent, body);
    RegistrationIsReached(true, newId);
    RunKeepsInv(start);
    RunAgreesWithVerdict(start);
    RunOneMore(start, timeout);
    RunOneMore(start + [timeout], reply);
    VerdictOneMore(start, timeout);
    VerdictOneMore(start + [timeout], reply);
    assert newId in Run(start + [timeout]).pending;
  }

  lemma VerdictOneMore(events: seq<Event>, event: Event)
    ensures VerdictOf(events + [event]) == Judge(Run(events), event, VerdictOf(events))
  {
    assert (events + [event])[..|events|] == events;
  }

  // ----- calls out of turn -----

  /** `register` raises unless no registration was begun, one failed, or one is waiting for its first reply. */
  lemma RegisterRaisesIff(s: State, callback: bool)
    ensures StepOutcome(s, Register(callback)).raised <==>
            !(s.phase.Disconnected? || s.phase.Error? || s.phase.Registering?)
  {
  }

  /** `cancel` raises unless a registration is under way. */
  lemma CancelRaisesIff(s: State, callback: bool)
    ensures StepOutcome(s, Cancel(callback)).raised <==>
            !(s.phase.Initializing? || s.phase.Registering? || s.phase.WaitingToPoll? || s.phase.Polling?)
  {
  }

  /** `register` starts over from the beginning and from a failure, and otherwise only replaces the callback. */
  lemma RegisterStarts(s: State, callback: bool)
    ensures var t := Step(s, Register(callback));
            if s.phase.Disconnected? || s.phase.Error? then
              t == s.(phase := Initializing, subscribing := true, registerCallback := callback)
            else
              t == s.(registerCallback := callback)
  {
  }
}
