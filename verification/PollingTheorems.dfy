/** What one registration does, whatever throttles, replies, timeouts and cancellations occur. */
module PollingTheorems {
  import opened Options
  import opened PollingReplies
  import opened PollingTopics
  import opened PollingModel

  // ----- the operation id of the latest reply that counts -----

  predicate IsAssigning(reply: Reply) {
    reply.Decoded? && reply.status == Some("assigning")
  }

  predicate Succeeded(status: Option<int>) {
    status.Some? && status.value < 300
  }

  predicate Throttled(status: Option<int>) {
    status.Some? && status.value >= 429
  }

  /**
   The operation id the service handed out last, as an observer of requests and replies keeps it: a reply
   "assigning" to the request in flight sets it, a throttled registration starts over without one.
   */
  function Heard(s: State, event: Event, latest: Option<string>): Option<string> {
    if event.Response? && event.request in s.pending && Live(s.phase) then
      HeardReply(s.pending[event.request], event.status, Read(event.body), latest)
    else
      latest
  }

  function HeardReply(
      handler: Handler, status: Option<int>, reply: Reply, latest: Option<string>): Option<string> {
    if Succeeded(status) && IsAssigning(reply) then reply.operation
    else if Throttled(status) && handler.OnRegisterResponse? then None
    else latest
  }

  function Latest(events: seq<Event>): Option<string> {
    if events == [] then None
    else Heard(Run(events[..|events| - 1]), events[|events| - 1], Latest(events[..|events| - 1]))
  }

  // ----- the invariant -----

  predicate Only<T(==)>(m: map<RequestId, T>, request: RequestId, value: T) {
    request in m && m[request] == value && forall r <- m :: r == request
  }

  predicate Empty<T>(m: map<RequestId, T>) {
    forall r <- m :: false
  }

  /** Exactly `request` is outstanding, filed under its topic. */
  predicate Outstanding(s: State, request: RequestId, handler: Handler, topic: string) {
    Only(s.pending, request, handler) && Only(s.operations, request, topic)
  }

  predicate NothingOutstanding(s: State) {
    Empty(s.pending) && Empty(s.operations)
  }

  predicate Quiet(s: State) {
    s.disconnects == [] && s.calls == []
  }

  /** At most one disconnect was started, for this goal, and only its callback can have run. */
  predicate Ending(s: State, goal: Goal) {
    !s.queryTimer.Armed? && !s.pollingTimer.Armed? &&
    (s.disconnects == [] || (s.disconnects == [goal] && s.calls == [])) &&
    (s.calls == [] || (|s.calls| == 1 && s.calls[0].CancelDone? == goal.ForCancel?))
  }

  /** The request that went out last. */
  function Newest(s: State): Sent
    requires s.sent != []
  {
    s.sent[|s.sent| - 1]
  }

  /** Phase by phase: what is outstanding, which timer runs, which callbacks may have run. */
  predicate Inv(s: State, latest: Option<string>) {
    s.overwritten == 0 &&
    (s.subscribing ==> s.phase.Initializing? || s.phase.Cancelling?) &&
    match s.phase
    case Disconnected =>
      Quiet(s) && latest.None? &&
      NothingOutstanding(s) && s.queryTimer.Unset? && s.pollingTimer.Unset?
    case Initializing =>
      Quiet(s) && latest.None? && s.subscribing &&
      NothingOutstanding(s) && s.queryTimer.Unset? && s.pollingTimer.Unset?
    case Registering =>
      Quiet(s) && s.queryTimer.Armed? && !s.pollingTimer.Armed? && latest.None? &&
      s.sent != [] && Newest(s).operation == None &&
      Outstanding(s, Newest(s).request, OnRegisterResponse, RegisterTopic(Newest(s).request))
    case WaitingToPoll =>
      Quiet(s) && s.queryTimer.Stopped? && s.pollingTimer.Armed? && s.pollFor == latest &&
      NothingOutstanding(s)
    case Polling =>
      Quiet(s) && s.queryTimer.Armed? && s.pollingTimer.Stopped? && latest.Some? &&
      s.sent != [] && Newest(s).operation == latest && PlainRequest(Newest(s).request) &&
      Outstanding(s, Newest(s).request, OnQueryResponse, QueryTopic(Newest(s).request, latest.value))
    case Completed => Ending(s, ForRegister)
    case Error => Ending(s, ForError)
    case Cancelling => Ending(s, ForCancel)
  }

  /** Request ids are plain, as the canonical form of a UUID is, and `register` is not called to retry after an error. */
  predicate Allowed(s: State, event: Event) {
    match event
    case Register(_) => !s.phase.Error?
    case Subscribed(newId) => PlainRequest(newId)
    case PollTimeout(newId) => PlainRequest(newId)
    case _ => true
  }

  /** The reply is a final one whose registration state raises while it is decoded. */
  predicate IsBadCompletion(reply: Reply) {
    reply.Decoded? && (reply.status == Some("assigned") || reply.status == Some("failed")) && !reply.completes
  }

  /**
   The replies to a request in flight that break the machine: a status that is not a number; a successful
   reply that cannot be decoded, be it at once or on completion; a reply that asks to wait for an interval
   that is not a number; and a throttled query whose operation id cannot be recovered from its topic.
   */
  predicate DerailingReply(
      phase: Phase, status: Option<int>, retry: RetryAfter, reply: Reply, latest: Option<string>) {
    status.None? ||
    (Succeeded(status) &&
     (reply.Undecodable? || IsBadCompletion(reply) || (IsAssigning(reply) && retry.Malformed?))) ||
    (Throttled(status) &&
     (retry.Malformed? || (phase.Polling? && latest.Some? && !PlainId(latest.value))))
  }

  predicate Derails(s: State, event: Event, latest: Option<string>) {
    event.Response? && event.request in s.pending && Live(s.phase) &&
    DerailingReply(s.phase, event.status, event.retry, Read(event.body), latest)
  }

  /** The only outstanding request has been answered and both tables have dropped it. */
  lemma AnsweredLeavesNothing(s: State, request: RequestId, handler: Handler, topic: string)
    requires Outstanding(s, request, handler, topic)
    ensures Empty(s.pending - {request}) && Empty(s.operations - {request})
  {
  }

  /** What the provider makes of the outcome of a handler. */
  function Answered(o: Outcome, request: RequestId): State {
    if o.raised then o.state else o.state.(pending := o.state.pending - {request})
  }

  lemma ThrottledWhileLive(
      s: State, request: RequestId, operation: Option<string>, retry: RetryAfter, latest: Option<string>)
    requires Quiet(s) && s.overwritten == 0 && !s.subscribing && (s.phase.Registering? || s.phase.Polling?)
    requires s.queryTimer.Stopped? && !s.pollingTimer.Armed?
    requires Empty(s.pending - {request}) && Empty(s.operations)
    ensures Inv(Answered(TrigWait(s, operation, retry), request), latest) <==>
            !retry.Malformed? && operation == latest
  {
  }

  lemma EndedWhileLive(s: State, request: RequestId, failure: Failure, reply: Reply, latest: Option<string>)
    requires Quiet(s) && s.overwritten == 0 && !s.subscribing && (s.phase.Registering? || s.phase.Polling?)
    ensures Inv(Answered(TrigError(s.(error := Some(failure))), request), latest)
    ensures Inv(Answered(TrigComplete(s.(result := Some(reply))), request), latest)
  {
    assert s.disconnects + [ForError] == [ForError] && s.disconnects + [ForRegister] == [ForRegister];
  }

  lemma SuccessWhileLive(s: State, request: RequestId, retry: RetryAfter, reply: Reply, latest: Option<string>)
    requires Quiet(s) && s.overwritten == 0 && !s.subscribing && (s.phase.Registering? || s.phase.Polling?)
    requires s.queryTimer.Stopped? && !s.pollingTimer.Armed?
    requires request in s.operations && Empty(s.pending - {request}) && Empty(s.operations - {request})
    ensures Inv(Answered(OnSuccess(s, request, retry, reply), request),
                if IsAssigning(reply) then reply.operation else latest)
            <==> !reply.Undecodable? && !IsBadCompletion(reply) && !(IsAssigning(reply) && retry.Malformed?)
  {
    var s0 := s.(operations := s.operations - {request});
    if IsAssigning(reply) {
      ThrottledWhileLive(s0, request, reply.operation, retry, reply.operation);
    } else if reply.Decoded? {
      EndedWhileLive(s0, request, OtherFailure, reply, latest);
    }
  }

  lemma RegistrationThrottled(s: State, request: RequestId, retry: RetryAfter)
    requires Inv(s, None) && s.phase.Registering? && request in s.pending
    ensures var s0 := s.(queryTimer := Stop(s.queryTimer), operations := s.operations - {request});
            Inv(Answered(TrigWait(s0, None, retry), request), None) <==> !retry.Malformed?
  {
    var topic := RegisterTopic(request);
    assert Outstanding(s, request, OnRegisterResponse, topic);
    AnsweredLeavesNothing(s, request, OnRegisterResponse, topic);
    var s0 := s.(queryTimer := Stop(s.queryTimer), operations := s.operations - {request});
    ThrottledWhileLive(s0, request, None, retry, None);
  }

  lemma RegistrationSucceeds(s: State, request: RequestId, retry: RetryAfter, reply: Reply)
    requires Inv(s, None) && s.phase.Registering? && request in s.pending
    ensures var o := OnSuccess(s.(queryTimer := Stop(s.queryTimer)), request, retry, reply);
            Inv(Answered(o, request), if IsAssigning(reply) then reply.operation else None)
            <==> !reply.Undecodable? && !IsBadCompletion(reply) && !(IsAssigning(reply) && retry.Malformed?)
  {
    var topic := RegisterTopic(request);
    assert Outstanding(s, request, OnRegisterResponse, topic);
    AnsweredLeavesNothing(s, request, OnRegisterResponse, topic);
    SuccessWhileLive(s.(queryTimer := Stop(s.queryTimer)), request, retry, reply, None);
  }

  lemma ReplyWhileRegistering(
      s: State, request: RequestId, status: Option<int>, retry: RetryAfter, reply: Reply, latest: Option<string>)
    requires Inv(s, latest) && s.phase.Registering? && request in s.pending
    ensures Inv(OnResponse(s, request, status, retry, reply).state,
                HeardReply(OnRegisterResponse, status, reply, latest))
            <==> !DerailingReply(s.phase, status, retry, reply, latest)
  {
    assert Outstanding(s, request, OnRegisterResponse, RegisterTopic(request));
    var t := OnResponse(s, request, status, retry, reply).state;
    assert t == Answered(OnRegister(s, request, status, retry, reply), request);
    if Throttled(status) {
      RegistrationThrottled(s, request, retry);
    } else if Succeeded(status) {
      RegistrationSucceeds(s, request, retry, reply);
    }
  }

  /** Every reply to a registration request, with the exact condition for the invariant. */
  lemma ResponseWhileRegistering(
      s: State, request: RequestId, status: Option<int>, retry: RetryAfter, body: Body, latest: Option<string>)
    requires Inv(s, latest) && s.phase.Registering? && request in s.pending
    ensures var event := Response(request, status, retry, body);
            Inv(Step(s, event), Heard(s, event, latest)) <==> !Derails(s, event, latest)
  {
    assert Outstanding(s, request, OnRegisterResponse, RegisterTopic(request));
    ReplyWhileRegistering(s, request, status, retry, Read(body), latest);
  }

  /** The state in which a reply to a query is judged: both timers are stopped. */
  function TimersStopped(s: State): State {
    s.(queryTimer := Stop(s.queryTimer), pollingTimer := Stop(s.pollingTimer))
  }

  lemma QueryThrottled(s: State, request: RequestId, recovered: Option<string>, retry: RetryAfter, latest: Option<string>)
    requires Inv(s, latest) && s.phase.Polling? && request in s.pending
    ensures var s0 := TimersStopped(s).(operations := s.operations - {request});
            Inv(Answered(OnThrottledQuery(s0, recovered, retry), request), latest) <==>
            !retry.Malformed? && recovered == latest
  {
    var topic := QueryTopic(request, latest.value);
    assert Outstanding(s, request, OnQueryResponse, topic);
    AnsweredLeavesNothing(s, request, OnQueryResponse, topic);
    var s0 := TimersStopped(s).(operations := s.operations - {request});
    if recovered.Some? {
      ThrottledWhileLive(s0, request, recovered, retry, latest);
    }
  }

  /** A throttled query keeps the invariant if and only if its interval is a number and its operation id plain. */
  lemma ThrottleWhilePolling(
      s: State, request: RequestId, status: Option<int>, retry: RetryAfter, reply: Reply, latest: Option<string>)
    requires Inv(s, latest) && s.phase.Polling? && request in s.pending && Throttled(status)
    ensures Inv(OnResponse(s, request, status, retry, reply).state, latest) <==>
            !retry.Malformed? && PlainId(latest.value)
  {
    var topic := QueryTopic(request, latest.value);
    assert PlainRequest(request) && Outstanding(s, request, OnQueryResponse, topic);
    var recovered := Recover(topic);
    assert recovered == latest <==> PlainId(latest.value) by { RecoverIff(request, latest.value); }
    var s0 := TimersStopped(s).(operations := s.operations - {request});
    assert OnQuery(s, request, status, retry, reply) == OnThrottledQuery(s0, recovered, retry);
    QueryThrottled(s, request, recovered, retry, latest);
  }

  lemma QuerySucceeds(s: State, request: RequestId, retry: RetryAfter, reply: Reply, latest: Option<string>)
    requires Inv(s, latest) && s.phase.Polling? && request in s.pending
    ensures Inv(Answered(OnSuccess(TimersStopped(s), request, retry, reply), request),
                if IsAssigning(reply) then reply.operation else latest)
            <==> !reply.Undecodable? && !IsBadCompletion(reply) && !(IsAssigning(reply) && retry.Malformed?)
  {
    var topic := QueryTopic(request, latest.value);
    assert Outstanding(s, request, OnQueryResponse, topic);
    AnsweredLeavesNothing(s, request, OnQueryResponse, topic);
    SuccessWhileLive(TimersStopped(s), request, retry, reply, latest);
  }

  lemma ReplyWhilePolling(
      s: State, request: RequestId, status: Option<int>, retry: RetryAfter, reply: Reply, latest: Option<string>)
    requires Inv(s, latest) && s.phase.Polling? && request in s.pending
    ensures Inv(OnResponse(s, request, status, retry, reply).state,
                HeardReply(OnQueryResponse, status, reply, latest))
            <==> !DerailingReply(s.phase, status, retry, reply, latest)
  {
    assert Outstanding(s, request, OnQueryResponse, QueryTopic(request, latest.value));
    if Throttled(status) {
      ThrottleWhilePolling(s, request, status, retry, reply, latest);
    } else {
      var t := OnResponse(s, request, status, retry, reply).state;
      assert t == Answered(OnQuery(s, request, status, retry, reply), request);
      if Succeeded(status) {
        QuerySucceeds(s, request, retry, reply, latest);
      }
    }
  }

  /** Every reply to a status query, with the exact condition for the invariant. */
  lemma ResponseWhilePolling(
      s: State, request: RequestId, status: Option<int>, retry: RetryAfter, body: Body, latest: Option<string>)
    requires Inv(s, latest) && s.phase.Polling? && request in s.pending
    ensures var event := Response(request, status, retry, body);
            Inv(Step(s, event), Heard(s, event, latest)) <==> !Derails(s, event, latest)
  {
    assert Outstanding(s, request, OnQueryResponse, QueryTopic(request, latest.value));
    ReplyWhilePolling(s, request, status, retry, Read(body), latest);
  }

  // ----- what a derailing reply does -----

  predicate NoTimerRuns(t: State) {
    !t.queryTimer.Armed? && !t.pollingTimer.Armed?
  }

  /** The request stays in flight in the same phase, with nothing to time it out. */
  predicate Stalled(s: State, t: State) {
    t.phase == s.phase && NoTimerRuns(t) && t.pending == s.pending
  }

  /** The machine waits to poll, but no timer will ever let it; the answered request stays in the table. */
  predicate WaitsForever(s: State, t: State) {
    t.phase.WaitingToPoll? && NoTimerRuns(t) && t.pending == s.pending
  }

  /** The next query goes out under an operation id other than the one last heard. */
  predicate Astray(t: State, latest: Option<string>) {
    t.phase.WaitingToPoll? && t.pollingTimer.Armed? && t.pollFor.Some? && t.pollFor != latest
  }

  lemma WaitStallsOrStrays(s: State, operation: Option<string>, retry: RetryAfter)
    requires (s.phase.Registering? || s.phase.Polling?) && NoTimerRuns(s)
    ensures retry.Malformed? ==> WaitsForever(s, TrigWait(s, operation, retry).state)
    ensures !retry.Malformed? ==>
              var o := TrigWait(s, operation, retry);
              !o.raised && o.state.phase.WaitingToPoll? && o.state.pollingTimer.Armed? && o.state.pollFor == operation
    ensures TrigWait(s, operation, retry).raised <==> retry.Malformed?
  {
  }

  lemma BadSuccessStalls(s: State, request: RequestId, retry: RetryAfter, reply: Reply)
    requires (s.phase.Registering? || s.phase.Polling?) && NoTimerRuns(s) && request in s.operations
    requires reply.Undecodable? || IsBadCompletion(reply) || (IsAssigning(reply) && retry.Malformed?)
    ensures var o := OnSuccess(s, request, retry, reply);
            o.raised && if IsAssigning(reply) then WaitsForever(s, o.state) else Stalled(s, o.state)
  {
    if IsAssigning(reply) {
      WaitStallsOrStrays(s.(operations := s.operations - {request}), reply.operation, retry);
    }
  }

  lemma RegistrationDerails(s: State, request: RequestId, status: Option<int>, retry: RetryAfter, reply: Reply)
    requires Inv(s, None) && s.phase.Registering? && request in s.pending
    requires DerailingReply(s.phase, status, retry, reply, None)
    ensures var o := OnRegister(s, request, status, retry, reply);
            o.raised && (Stalled(s, o.state) || WaitsForever(s, o.state))
  {
    assert Outstanding(s, request, OnRegisterResponse, RegisterTopic(request));
    var s0 := s.(queryTimer := Stop(s.queryTimer));
    if Throttled(status) {
      WaitStallsOrStrays(s0.(operations := s0.operations - {request}), None, retry);
    } else if Succeeded(status) {
      BadSuccessStalls(s0, request, retry, reply);
    }
  }

  lemma ThrottledQueryDerails(s: State, recovered: Option<string>, retry: RetryAfter, latest: Option<string>)
    requires s.phase.Polling? && NoTimerRuns(s) && (retry.Malformed? || recovered != latest)
    ensures var o := OnThrottledQuery(s, recovered, retry);
            (o.raised && (Stalled(s, o.state) || WaitsForever(s, o.state))) || (!o.raised && Astray(o.state, latest))
  {
    if recovered.Some? {
      WaitStallsOrStrays(s, recovered, retry);
    }
  }

  lemma QueryDerails(
      s: State, request: RequestId, status: Option<int>, retry: RetryAfter, reply: Reply, latest: Option<string>)
    requires Inv(s, latest) && s.phase.Polling? && request in s.pending
    requires DerailingReply(s.phase, status, retry, reply, latest)
    ensures var o := OnQuery(s, request, status, retry, reply);
            (o.raised && (Stalled(s, o.state) || WaitsForever(s, o.state))) || (!o.raised && Astray(o.state, latest))
  {
    var topic := QueryTopic(request, latest.value);
    assert PlainRequest(request) && Outstanding(s, request, OnQueryResponse, topic);
    var s0 := TimersStopped(s);
    if Throttled(status) {
      RecoverIff(request, latest.value);
      ThrottledQueryDerails(s0.(operations := s0.operations - {request}), Recover(topic), retry, latest);
    } else if Succeeded(status) {
      BadSuccessStalls(s0, request, retry, reply);
    }
  }

  /**
   What a reply that derails the machine does to it: the machine stays where it was, or waits to poll, with
   no timer running and the answered request still in the table; or it goes on with a wrong operation id.
   */
  lemma DerailedStallsOrStrays(s: State, event: Event, latest: Option<string>)
    requires Inv(s, latest) && Derails(s, event, latest)
    ensures var t := Step(s, event);
            Stalled(s, t) || WaitsForever(s, t) || Astray(t, latest)
  {
    var Response(request, status, retry, body) := event;
    if s.phase.Registering? {
      assert Outstanding(s, request, OnRegisterResponse, RegisterTopic(request));
      RegistrationDerails(s, request, status, retry, Read(body));
    } else {
      assert Outstanding(s, request, OnQueryResponse, QueryTopic(request, latest.value));
      QueryDerails(s, request, status, retry, Read(body), latest);
    }
  }

  /** Everything about the way a registration ends, apart from the tables. */
  predicate SameEnding(s: State, t: State) {
    t.phase == s.phase && t.disconnects == s.disconnects && t.calls == s.calls &&
    t.overwritten == s.overwritten && t.subscribing == s.subscribing &&
    (t.queryTimer.Armed? ==> s.queryTimer.Armed?) && (t.pollingTimer.Armed? ==> s.pollingTimer.Armed?)
  }

  lemma WaitAfterTheEnd(s: State, operation: Option<string>, retry: RetryAfter)
    requires !Live(s.phase)
    ensures SameEnding(s, TrigWait(s, operation, retry).state)
  {
  }

  lemma SuccessAfterTheEnd(s: State, request: RequestId, retry: RetryAfter, reply: Reply)
    requires !Live(s.phase)
    ensures SameEnding(s, OnSuccess(s, request, retry, reply).state)
  {
  }

  lemma RegisterReplyAfterTheEnd(
      s: State, request: RequestId, status: Option<int>, retry: RetryAfter, reply: Reply)
    requires !Live(s.phase)
    ensures SameEnding(s, OnRegister(s, request, status, retry, reply).state)
  {
    var s0 := s.(queryTimer := Stop(s.queryTimer));
    SuccessAfterTheEnd(s0, request, retry, reply);
    WaitAfterTheEnd(s0.(operations := s0.operations - {request}), None, retry);
  }

  lemma ThrottleAfterTheEnd(s: State, recovered: Option<string>, retry: RetryAfter)
    requires !Live(s.phase)
    ensures SameEnding(s, OnThrottledQuery(s, recovered, retry).state)
  {
    WaitAfterTheEnd(s, recovered, retry);
  }

  lemma QueryReplyAfterTheEnd(
      s: State, request: RequestId, status: Option<int>, retry: RetryAfter, reply: Reply)
    requires !Live(s.phase)
    ensures SameEnding(s, OnQuery(s, request, status, retry, reply).state)
  {
    var s0 := TimersStopped(s);
    SuccessAfterTheEnd(s0, request, retry, reply);
    if request in s0.operations {
      ThrottleAfterTheEnd(s0.(operations := s0.operations - {request}), Recover(s0.operations[request]), retry);
    }
  }

  lemma ResponseAfterTheEnd(s: State, request: RequestId, status: Option<int>, retry: RetryAfter, reply: Reply)
    requires !Live(s.phase)
    ensures SameEnding(s, OnResponse(s, request, status, retry, reply).state)
  {
    RegisterReplyAfterTheEnd(s, request, status, retry, reply);
    QueryReplyAfterTheEnd(s, request, status, retry, reply);
  }

  /** One task keeps the invariant if and only if it does not derail the machine. */
  lemma StepKeepsInvIff(s: State, event: Event, latest: Option<string>)
    requires Inv(s, latest) && Allowed(s, event)
    ensures Inv(Step(s, event), Heard(s, event, latest)) <==> !Derails(s, event, latest)
  {
    match event
    case Response(request, status, retry, body) =>
      if s.phase.Registering? && request in s.pending {
        ResponseWhileRegistering(s, request, status, retry, body, latest);
      } else if s.phase.Polling? && request in s.pending {
        ResponseWhilePolling(s, request, status, retry, body, latest);
      } else if !Live(s.phase) {
        ResponseAfterTheEnd(s, request, status, retry, Read(body));
      }
    case Subscribed(newId) =>
      SendKeepsInv(s, newId, latest);
    case PollTimeout(newId) =>
      PollKeepsInv(s, newId, latest);
    case _ =>
      OthersKeepInv(s, event, latest);
  }

  lemma OthersKeepInv(s: State, event: Event, latest: Option<string>)
    requires Inv(s, latest) && Allowed(s, event)
    requires event.Register? || event.Cancel? || event.QueryTimeout? || event.DisconnectDone?
    ensures Inv(Step(s, event), latest)
  {
    match event
    case Register(callback) => RegisterKeepsInv(s, callback, latest);
    case Cancel(callback) => CancelKeepsInv(s, callback, latest);
    case QueryTimeout => TimeoutKeepsInv(s, latest);
    case DisconnectDone(index) =>
      if index < |s.disconnects| { DisconnectKeepsInv(s, index, latest); }
  }

  lemma RegisterKeepsInv(s: State, callback: bool, latest: Option<string>)
    requires Inv(s, latest) && !s.phase.Error?
    ensures Inv(TrigRegister(s.(registerCallback := callback)).state, latest)
  {
  }

  lemma CancelKeepsInv(s: State, callback: bool, latest: Option<string>)
    requires Inv(s, latest)
    ensures Inv(TrigCancel(s.(cancelCallback := callback)).state, latest)
  {
    if Live(s.phase) || s.phase.Initializing? {
      var t := TrigCancel(s.(cancelCallback := callback)).state;
      assert Quiet(s) && t.disconnects == [ForCancel] && t.phase.Cancelling?;
      assert Ending(t, ForCancel);
    }
  }

  lemma TimeoutKeepsInv(s: State, latest: Option<string>)
    requires Inv(s, latest)
    ensures Inv(OnQueryTimeout(s).state, latest)
  {
  }

  lemma DisconnectKeepsInv(s: State, index: nat, latest: Option<string>)
    requires Inv(s, latest) && index < |s.disconnects|
    ensures Inv(OnDisconnected(s, index).state, latest)
  {
    assert s.disconnects[..index] + s.disconnects[index + 1..] == [];
  }

  lemma SendKeepsInv(s: State, newId: RequestId, latest: Option<string>)
    requires Inv(s, latest)
    ensures Inv(Step(s, Subscribed(newId)), latest)
  {
    var t := Step(s, Subscribed(newId));
    if s.phase.Initializing? && s.subscribing {
      assert Outstanding(t, newId, OnRegisterResponse, RegisterTopic(newId));
    }
  }

  lemma RetryKeepsInv(s: State, newId: RequestId)
    requires Inv(s, None) && s.phase.WaitingToPoll?
    ensures Inv(OnPollTimeout(s, newId).state, None)
  {
    assert Outstanding(OnPollTimeout(s, newId).state, newId, OnRegisterResponse, RegisterTopic(newId));
  }

  lemma QueryKeepsInv(s: State, newId: RequestId, operation: string)
    requires Inv(s, Some(operation)) && s.phase.WaitingToPoll? && PlainRequest(newId)
    ensures Inv(OnPollTimeout(s, newId).state, Some(operation))
  {
    assert Outstanding(OnPollTimeout(s, newId).state, newId, OnQueryResponse, QueryTopic(newId, operation));
  }

  lemma PollKeepsInv(s: State, newId: RequestId, latest: Option<string>)
    requires Inv(s, latest) && PlainRequest(newId)
    ensures Inv(Step(s, PollTimeout(newId)), latest)
  {
    if s.phase.WaitingToPoll? {
      match latest
      case None => RetryKeepsInv(s, newId);
      case Some(operation) => QueryKeepsInv(s, newId, operation);
    }
  }

  // ----- whole runs -----

  /** A run in which every event is allowed and none of them derails the machine. */
  predicate GoodRun(events: seq<Event>) {
    events == [] ||
    (var before, last := events[..|events| - 1], events[|events| - 1];
     GoodRun(before) && Allowed(Run(before), last) && !Derails(Run(before), last, Latest(before)))
  }

  /**
   While registering or polling exactly one request is outstanding and the query timer runs; while
   waiting none is outstanding and the polling timer runs; once the registration is over no timer
   runs; no running timer is ever replaced.
   */
  lemma {:induction false} RunKeepsInv(events: seq<Event>)
    requires GoodRun(events)
    ensures Inv(Run(events), Latest(events))
    decreases |events|
  {
    if events != [] {
      var n := |events| - 1;
      RunKeepsInv(events[..n]);
      StepKeepsInvIff(Run(events[..n]), events[n], Latest(events[..n]));
    }
  }

  // ----- the derailing replies are met by real runs -----

  lemma RunOneMore(events: seq<Event>, event: Event)
    ensures var more := events + [event];
            Run(more) == Step(Run(events), event) && Latest(more) == Heard(Run(events), event, Latest(events)) &&
            (GoodRun(more) <==> GoodRun(events) && Allowed(Run(events), event) &&
                                !Derails(Run(events), event, Latest(events)))
  {
    assert (events + [event])[..|events|] == events;
  }

  function Registration(callback: bool, newId: RequestId): seq<Event> {
    [Register(callback)] + [Subscribed(newId)]
  }

  lemma RegistrationIsReached(callback: bool, newId: RequestId)
    requires PlainRequest(newId)
    ensures var events := Registration(callback, newId);
            GoodRun(events) && Latest(events).None? &&
            Run(events).phase.Registering? && Run(events).pending == map[newId := OnRegisterResponse]
  {
    assert [] + [Register(callback)] == [Register(callback)];
    RunOneMore([], Register(callback));
    RunOneMore([Register(callback)], Subscribed(newId));
  }

  /** From the very start: the first reply to a registration breaks the machine exactly if it is a derailing one. */
  lemma FirstReplyKeepsInvIff(
      callback: bool, newId: RequestId, status: Option<int>, retry: RetryAfter, body: Body)
    requires PlainRequest(newId)
    ensures var events := Registration(callback, newId) + [Response(newId, status, retry, body)];
            Inv(Run(events), Latest(events)) <==> !DerailingReply(Registering, status, retry, Read(body), None)
  {
    var before, event := Registration(callback, newId), Response(newId, status, retry, body);
    RegistrationIsReached(callback, newId);
    RunKeepsInv(before);
    RunOneMore(before, event);
    StepKeepsInvIff(Run(before), event, None);
  }

  /** A reply of the service that says "assigning". */
  function Assigning(operation: string): Body {
    Parsed(Object(map["operationId" := Text(operation), "status" := Text("assigning")], ""))
  }

  lemma AssigningIsRead(operation: string)
    ensures var reply := Read(Assigning(operation));
            reply.Decoded? && reply.operation == Some(operation) && IsAssigning(reply)
  {
    var members := Assigning(operation).value.members;
    assert members["operationId"] == Text(operation) && members["status"] == Text("assigning");
  }

  /** The first reply says "assigning" and asks to retry after an interval that is not a number. */
  lemma MalformedIntervalWaitsForever(callback: bool, newId: RequestId, operation: string)
    requires PlainRequest(newId)
    ensures var before := Registration(callback, newId);
            WaitsForever(Run(before), Run(before + [Response(newId, Some(202), Malformed, Assigning(operation))]))
  {
    var before, event := Registration(callback, newId), Response(newId, Some(202), Malformed, Assigning(operation));
    RegistrationIsReached(callback, newId);
    RunKeepsInv(before);
    RunOneMore(before, event);
    AssigningIsRead(operation);
    var s := Run(before);
    assert Outstanding(s, newId, OnRegisterResponse, RegisterTopic(newId));
    BadSuccessStalls(s.(queryTimer := Stop(s.queryTimer)), newId, Malformed, Read(event.body));
  }

  function Assignment(callback: bool, newId: RequestId, operation: string): seq<Event> {
    Registration(callback, newId) + [Response(newId, Some(202), Absent, Assigning(operation))]
  }

  lemma AssignmentIsReached(callback: bool, newId: RequestId, operation: string)
    requires PlainRequest(newId)
    ensures var events := Assignment(callback, newId, operation);
            GoodRun(events) && Latest(events) == Some(operation) && Run(events).phase.WaitingToPoll?
  {
    var before := Registration(callback, newId);
    RegistrationIsReached(callback, newId);
    AssigningIsRead(operation);
    RunOneMore(before, Response(newId, Some(202), Absent, Assigning(operation)));
    RunKeepsInv(before);
    assert Outstanding(Run(before), newId, OnRegisterResponse, RegisterTopic(newId));
  }

  function Query(callback: bool, newId: RequestId, operation: string, nextId: RequestId): seq<Event> {
    Assignment(callback, newId, operation) + [PollTimeout(nextId)]
  }

  lemma QueryIsReached(callback: bool, newId: RequestId, operation: string, nextId: RequestId)
    requires PlainRequest(newId) && PlainRequest(nextId)
    ensures var events := Query(callback, newId, operation, nextId);
            GoodRun(events) && Latest(events) == Some(operation) &&
            Run(events).phase.Polling? && nextId in Run(events).pending
  {
    var before := Assignment(callback, newId, operation);
    AssignmentIsReached(callback, newId, operation);
    RunKeepsInv(before);
    RunOneMore(before, PollTimeout(nextId));
  }

  /**
   The same for the first status query, whatever operation id the service handed out: an id that is not
   plain breaks the machine at the first throttle.
   */
  lemma FirstQueryReplyKeepsInvIff(
      callback: bool, newId: RequestId, operation: string, nextId: RequestId,
      status: Option<int>, retry: RetryAfter, body: Body)
    requires PlainRequest(newId) && PlainRequest(nextId)
    ensures var events := Query(callback, newId, operation, nextId) + [Response(nextId, status, retry, body)];
            Inv(Run(events), Latest(events)) <==>
            !DerailingReply(Polling, status, retry, Read(body), Some(operation))
  {
    var before, event := Query(callback, newId, operation, nextId), Response(nextId, status, retry, body);
    QueryIsReached(callback, newId, operation, nextId);
    RunKeepsInv(before);
    RunOneMore(before, event);
    StepKeepsInvIff(Run(before), event, Some(operation));
  }

  /** The register and the cancel callback exclude each other, and each runs at most once. */
  lemma OneCallbackAtMost(events: seq<Event>)
    requires GoodRun(events)
    ensures var s := Run(events);
            |s.calls| <= 1 &&
            (s.calls != [] ==> (s.calls[0].CancelDone? <==> s.phase.Cancelling?)) &&
            (Live(s.phase) ==> s.calls == [])
  {
    RunKeepsInv(events);
  }

  /**
   The request that an event sends: a registration once subscribed, and the next request when the polling
   timer fires, each under the new id and with the operation id last heard.
   */
  function NextRequest(s: State, event: Event, latest: Option<string>): seq<Sent> {
    match event
    case Subscribed(newId) => if s.phase.Initializing? then [Sent(newId, None)] else []
    case PollTimeout(newId) => if s.phase.WaitingToPoll? then [Sent(newId, latest)] else []
    case _ => []
  }

  lemma SubscribedSendsLatest(s: State, newId: RequestId, latest: Option<string>)
    requires Inv(s, latest)
    ensures Step(s, Subscribed(newId)).sent == s.sent + NextRequest(s, Subscribed(newId), latest)
  {
  }

  lemma PollSendsLatest(s: State, newId: RequestId, latest: Option<string>)
    requires Inv(s, latest)
    ensures Step(s, PollTimeout(newId)).sent == s.sent + NextRequest(s, PollTimeout(newId), latest)
  {
  }

  lemma StepSendsLatest(s: State, event: Event, latest: Option<string>)
    requires Inv(s, latest)
    ensures Step(s, event).sent == s.sent + NextRequest(s, event, latest)
  {
    match event
    case Subscribed(newId) =>
      SubscribedSendsLatest(s, newId, latest);
    case PollTimeout(newId) =>
      PollSendsLatest(s, newId, latest);
    case Response(request, status, retry, body) =>
      ResponseSendsNothing(s, request, status, retry, Read(body));
    case _ =>
  }

  lemma WaitSendsNothing(s: State, operation: Option<string>, retry: RetryAfter)
    ensures TrigWait(s, operation, retry).state.sent == s.sent
  {
    assert ArmPollingTimer(s.(phase := WaitingToPoll), operation).sent == s.sent;
  }

  lemma SuccessSendsNothing(s: State, request: RequestId, retry: RetryAfter, reply: Reply)
    ensures OnSuccess(s, request, retry, reply).state.sent == s.sent
  {
  }

  lemma RegisterReplySendsNothing(
      s: State, request: RequestId, status: Option<int>, retry: RetryAfter, reply: Reply)
    ensures OnRegister(s, request, status, retry, reply).state.sent == s.sent
  {
    var s0 := s.(queryTimer := Stop(s.queryTimer));
    SuccessSendsNothing(s0, request, retry, reply);
    WaitSendsNothing(s0.(operations := s0.operations - {request}), None, retry);
  }

  lemma ThrottleSendsNothing(s: State, recovered: Option<string>, retry: RetryAfter)
    ensures OnThrottledQuery(s, recovered, retry).state.sent == s.sent
  {
    WaitSendsNothing(s, recovered, retry);
  }

  lemma QueryReplySendsNothing(
      s: State, request: RequestId, status: Option<int>, retry: RetryAfter, reply: Reply)
    ensures OnQuery(s, request, status, retry, reply).state.sent == s.sent
  {
    var s0 := TimersStopped(s);
    SuccessSendsNothing(s0, request, retry, reply);
    if request in s.operations {
      ThrottleSendsNothing(s0.(operations := s0.operations - {request}), Recover(s0.operations[request]), retry);
    }
  }

  lemma ResponseSendsNothing(s: State, request: RequestId, status: Option<int>, retry: RetryAfter, reply: Reply)
    ensures OnResponse(s, request, status, retry, reply).state.sent == s.sent
  {
    RegisterReplySendsNothing(s, request, status, retry, reply);
    QueryReplySendsNothing(s, request, status, retry, reply);
  }

  /**
   Whatever throttles and "assigning" replies came before, an event sends exactly the request that is due: a
   registration once subscribed, and when the polling timer fires a status query with the operation id of the
   latest successful reply that led to it, or a registration if there is none.
   */
  lemma NextRequestCarriesLatest(events: seq<Event>, event: Event)
    requires GoodRun(events)
    ensures Step(Run(events), event).sent ==
            Run(events).sent + NextRequest(Run(events), event, Latest(events))
  {
    RunKeepsInv(events);
    StepSendsLatest(Run(events), event, Latest(events));
  }
}
