/**
 CoordinateRequestAndResponseStage: every SendIotRequestAndWaitForResponse operation is sent down under
 a fresh request id and completes when the response with that id arrives, or when sending it fails.
 Send results and responses arrive in any order; a result that comes back while the operation is still
 being passed down is the next event after its submission.
 */
module CoordinateRequests {
  import opened Options

  type OpId = nat
  type RequestId = string
  type Error = nat

  /** The operation as its callback sees it. */
  datatype Completion = Completion(op: OpId, error: Option<Error>, status: Option<nat>, body: string)

  datatype State = State(
    pending: map<RequestId, OpId>,   // pending_responses
    sending: map<RequestId, OpId>,   // on_send_request_done closures: request id and operation
    errors: map<OpId, Error>,        // the error attribute of the operations
    completed: seq<Completion>)      // log of callbacks

  const INITIAL := State(map[], map[], map[], [])

  datatype Event =
    | Submit(op: OpId, request: RequestId)
    | SendDone(request: RequestId, error: Option<Error>)
    | Response(request: RequestId, status: nat, body: string)

  function Finish(s: State, request: RequestId, completion: Completion): State {
    s.(pending := s.pending - {request}, completed := s.completed + [completion])
  }

  function Step(s: State, event: Event): State {
    match event
    case Submit(op, request) =>
      s.(pending := s.pending[request := op], sending := s.sending[request := op])
    case SendDone(request, error) =>
      if request in s.sending && error.Some? then
        var op := s.sending[request];
        var s0 := s.(errors := s.errors[op := error.value]);
        // deleting a request that is gone raises KeyError, which complete_op swallows
        if request in s.pending then Finish(s0, request, Completion(op, error, None, "")) else s0
      else s
    case Response(request, status, body) =>
      if request in s.pending then
        Finish(s, request, Completion(s.pending[request], None, Some(status), body))
      else s
  }

  function Run(events: seq<Event>): State {
    if events == [] then INITIAL else Step(Run(events[..|events| - 1]), events[|events| - 1])
  }

  class Stage {
    var pendingResponses: map<RequestId, OpId>
    var sending: map<RequestId, OpId>
    var errors: map<OpId, Error>
    ghost var completed: seq<Completion>

    ghost function Current(): State
      reads this
    {
      State(pendingResponses, sending, errors, completed)
    }

    constructor ()
      ensures Current() == INITIAL
    {
      pendingResponses, sending, errors, completed := map[], map[], map[], [];
    }

    method ExecuteOp(op: OpId, requestId: RequestId)
      modifies this
      ensures Current() == Step(old(Current()), Submit(op, requestId))
    {
      pendingResponses := pendingResponses[requestId := op];
      sending := sending[requestId := op];
    }

    method OnSendRequestDone(requestId: RequestId, error: Option<Error>)
      modifies this
      ensures Current() == Step(old(Current()), SendDone(requestId, error))
    {
      if requestId in sending && error.Some? {
        var op := sending[requestId];
        errors := errors[op := error.value];
        if requestId !in pendingResponses {
          return;
        }
        pendingResponses := pendingResponses - {requestId};
        completed := completed + [Completion(op, error, None, "")];
      }
    }

    method HandleResponse(requestId: RequestId, status: nat, body: string)
      modifies this
      ensures Current() == Step(old(Current()), Response(requestId, status, body))
    {
      if requestId in pendingResponses {
        var op := pendingResponses[requestId];
        pendingResponses := pendingResponses - {requestId};
        completed := completed + [Completion(op, None, Some(status), body)];
      }
    }
  }

  // ----- the first event that concerns a request decides it -----

  /** What `event` makes of operation `op`, waiting under `request`. */
  function Verdict(op: OpId, request: RequestId, event: Event): seq<Completion> {
    match event
    case Submit(_, _) => []
    case SendDone(r, error) => if r == request && error.Some? then [Completion(op, error, None, "")] else []
    case Response(r, status, body) => if r == request then [Completion(op, None, Some(status), body)] else []
  }

  /** The completion that a sequence of events brings `op`: the first verdict, if there is one. */
  function FirstVerdict(op: OpId, request: RequestId, events: seq<Event>): (r: seq<Completion>)
    ensures |r| <= 1
  {
    if events == [] then []
    else
      var v := Verdict(op, request, events[0]);
      if v != [] then v else FirstVerdict(op, request, events[1..])
  }

  function CompletionsOf(log: seq<Completion>, op: OpId): seq<Completion> {
    if log == [] then []
    else CompletionsOf(log[..|log| - 1], op) + if log[|log| - 1].op == op then [log[|log| - 1]] else []
  }

  lemma CompletionsOfOne(log: seq<Completion>, completion: Completion, op: OpId)
    ensures CompletionsOf(log + [completion], op) ==
            CompletionsOf(log, op) + if completion.op == op then [completion] else []
  {
    assert (log + [completion])[..|log|] == log;
  }

  /** No request id is drawn twice and no operation is submitted twice. */
  predicate Unique(events: seq<Event>) {
    forall i, j :: 0 <= i < j < |events| && events[i].Submit? && events[j].Submit? ==>
      events[i].request != events[j].request && events[i].op != events[j].op
  }

  /** The maps name only operations that were submitted, under the request id drawn for them. */
  predicate Known(s: State, events: seq<Event>) {
    (forall r <- s.sending :: Submit(s.sending[r], r) in events) &&
    (forall r <- s.pending :: r in s.sending && s.pending[r] == s.sending[r]) &&
    (forall c <- s.completed :: exists i | 0 <= i < |events| :: events[i].Submit? && events[i].op == c.op)
  }

  lemma {:induction false} RunKnows(events: seq<Event>)
    ensures Known(Run(events), events)
    decreases |events|
  {
    if events != [] {
      var n := |events| - 1;
      var s, t := Run(events[..n]), Run(events);
      RunKnows(events[..n]);
      assert events == events[..n] + [events[n]];
      assert forall r <- s.sending :: Submit(s.sending[r], r) in events;
      forall c <- t.completed
        ensures exists i | 0 <= i < |events| :: events[i].Submit? && events[i].op == c.op
      {
        if c in s.completed {
          var i :| 0 <= i < n && events[..n][i].Submit? && events[..n][i].op == c.op;
          assert events[i].Submit? && events[i].op == c.op;
        } else {
          assert Submit(s.sending[events[n].request], events[n].request) in events;
        }
      }
    }
  }

  lemma {:induction false} NothingBefore(log: seq<Completion>, op: OpId)
    requires forall c <- log :: c.op != op
    ensures CompletionsOf(log, op) == []
    decreases |log|
  {
    if log != [] {
      NothingBefore(log[..|log| - 1], op);
    }
  }

  /** `op` waits under `request` and under nothing else, and has completed as `verdict` says. */
  predicate Correlated(s: State, op: OpId, request: RequestId, verdict: seq<Completion>) {
    && request in s.sending
    && (forall r <- s.sending :: s.sending[r] == op <==> r == request)
    && (forall r <- s.pending :: r in s.sending && s.pending[r] == s.sending[r])
    && (request in s.pending <==> verdict == [])
    && CompletionsOf(s.completed, op) == verdict
  }

  lemma StepCorrelates(s: State, op: OpId, request: RequestId, verdict: seq<Completion>, event: Event)
    requires Correlated(s, op, request, verdict)
    requires event.Submit? ==> event.op != op && event.request != request
    ensures Correlated(Step(s, event), op, request, if verdict != [] then verdict else Verdict(op, request, event))
  {
    var t := Step(s, event);
    if t.completed != s.completed {
      CompletionsOfOne(s.completed, t.completed[|s.completed|], op);
    }
  }

  lemma SubmitCorrelates(events: seq<Event>, n: nat)
    requires Unique(events) && n < |events| && events[n].Submit?
    ensures Correlated(Step(Run(events[..n]), events[n]), events[n].op, events[n].request, [])
  {
    var s := Run(events[..n]);
    RunKnows(events[..n]);
    assert forall e <- events[..n] :: e.Submit? ==> e.op != events[n].op && e.request != events[n].request;
    NothingBefore(s.completed, events[n].op);
  }

  function RunFrom(s: State, events: seq<Event>): State
    decreases |events|
  {
    if events == [] then s else RunFrom(Step(s, events[0]), events[1..])
  }

  lemma {:induction false} RunFromLast(s: State, events: seq<Event>, event: Event)
    ensures RunFrom(s, events + [event]) == Step(RunFrom(s, events), event)
    decreases |events|
  {
    var all := events + [event];
    if events == [] {
      assert all[0] == event && all[1..] == [];
    } else {
      assert all[0] == events[0] && all[1..] == events[1..] + [event];
      RunFromLast(Step(s, events[0]), events[1..], event);
    }
  }

  lemma {:induction false} RunSplits(earlier: seq<Event>, later: seq<Event>)
    ensures Run(earlier + later) == RunFrom(Run(earlier), later)
    decreases |later|
  {
    if later == [] {
      assert earlier + later == earlier;
    } else {
      var n := |later| - 1;
      assert (earlier + later)[..|earlier| + n] == earlier + later[..n];
      RunSplits(earlier, later[..n]);
      RunFromLast(Run(earlier), later[..n], later[n]);
      assert later[..n] + [later[n]] == later;
    }
  }

  /** None of the events submits this operation again or draws its request id again. */
  predicate Foreign(events: seq<Event>, op: OpId, request: RequestId) {
    forall i | 0 <= i < |events| :: events[i].Submit? ==> events[i].op != op && events[i].request != request
  }

  /** The first of `later` that concerns the request decides, unless something decided before. */
  lemma {:induction false} LaterEventsDecide(
      s: State, later: seq<Event>, op: OpId, request: RequestId, verdict: seq<Completion>)
    requires Correlated(s, op, request, verdict) && Foreign(later, op, request)
    ensures Correlated(RunFrom(s, later), op, request,
                       if verdict != [] then verdict else FirstVerdict(op, request, later))
    decreases |later|
  {
    if later != [] {
      StepCorrelates(s, op, request, verdict, later[0]);
      var next := if verdict != [] then verdict else Verdict(op, request, later[0]);
      LaterEventsDecide(Step(s, later[0]), later[1..], op, request, next);
    }
  }

  lemma RunSplitsAround(earlier: seq<Event>, event: Event, later: seq<Event>)
    ensures Run(earlier + [event] + later) == RunFrom(Step(Run(earlier), event), later)
  {
    RunSplits(earlier, [event]);
    RunSplits(earlier + [event], later);
    assert [event][1..] == [];
  }

  lemma CutAt(events: seq<Event>, i: nat)
    requires i < |events|
    ensures events == events[..i] + [events[i]] + events[i + 1..]
  {
  }

  lemma LaterIsForeign(events: seq<Event>, i: nat)
    requires Unique(events) && i < |events| && events[i].Submit?
    ensures Foreign(events[i + 1..], events[i].op, events[i].request)
  {
    var later := events[i + 1..];
    forall j | 0 <= j < |later| && later[j].Submit?
      ensures later[j].op != events[i].op && later[j].request != events[i].request
    {
      assert later[j] == events[i + 1 + j];
    }
  }

  /**
   Correlation, for any order of send results and responses, early, late, duplicated or unknown: the
   operation submitted at position i completes exactly as the first later event that concerns its
   request id says, at most once, and it is pending exactly as long as there is no such event.
   */
  lemma FirstVerdictDecides(events: seq<Event>, i: nat)
    requires Unique(events) && i < |events| && events[i].Submit?
    ensures var op, request := events[i].op, events[i].request;
            Correlated(Run(events), op, request, FirstVerdict(op, request, events[i + 1..]))
  {
    SubmitCorrelates(events, i);
    CutAt(events, i);
    RunSplitsAround(events[..i], events[i], events[i + 1..]);
    LaterIsForeign(events, i);
    LaterEventsDecide(
      Step(Run(events[..i]), events[i]), events[i + 1..], events[i].op, events[i].request, []);
  }

  /** A send error that comes after the response completes nothing; it still marks the operation. */
  lemma LateSendErrorIsSwallowed(events: seq<Event>, i: nat, error: Error)
    requires Unique(events) && i < |events| && events[i].Submit?
    requires FirstVerdict(events[i].op, events[i].request, events[i + 1..]) != []
    ensures var s, t := Run(events), Step(Run(events), SendDone(events[i].request, Some(error)));
            t == s.(errors := s.errors[events[i].op := error])
  {
    FirstVerdictDecides(events, i);
  }

  // ----- the error attribute an operation ends up with -----

  predicate IsSendError(event: Event, request: RequestId) {
    event.SendDone? && event.request == request && event.error.Some?
  }

  /** The error of the last failed send result for `request`. */
  function LastError(request: RequestId, events: seq<Event>): Option<Error> {
    if events == [] then None
    else if LastError(request, events[1..]).Some? then LastError(request, events[1..])
    else if IsSendError(events[0], request) then events[0].error
    else None
  }

  lemma {:induction false} LastErrorIff(request: RequestId, events: seq<Event>)
    ensures LastError(request, events).Some? <==> exists event <- events :: IsSendError(event, request)
    decreases |events|
  {
    if events != [] {
      LastErrorIff(request, events[1..]);
      assert events == [events[0]] + events[1..];
    }
  }

  /** Only operations that were sent have an error. */
  predicate ErrorsAreSent(s: State) {
    forall op <- s.errors :: exists r <- s.sending :: s.sending[r] == op
  }

  lemma StepErrorsAreSent(s: State, event: Event)
    requires ErrorsAreSent(s) && (event.Submit? ==> event.request !in s.sending)
    ensures ErrorsAreSent(Step(s, event))
  {
    var t := Step(s, event);
    forall op <- t.errors
      ensures exists r <- t.sending :: t.sending[r] == op
    {
      if op in s.errors {
        var r :| r in s.sending && s.sending[r] == op;
        assert t.sending[r] == op;
      } else {
        assert t.sending[event.request] == op;
      }
    }
  }

  lemma SubmittedIsNew(events: seq<Event>, i: nat)
    requires Unique(events) && i < |events| && events[i].Submit?
    ensures var s := Run(events[..i]);
            events[i].request !in s.sending && forall r <- s.sending :: s.sending[r] != events[i].op
  {
    var s := Run(events[..i]);
    RunKnows(events[..i]);
    forall r <- s.sending
      ensures r != events[i].request && s.sending[r] != events[i].op
    {
      assert Submit(s.sending[r], r) in events[..i];
    }
  }

  lemma {:induction false} RunErrorsAreSent(events: seq<Event>)
    requires Unique(events)
    ensures ErrorsAreSent(Run(events))
    decreases |events|
  {
    if events != [] {
      var n := |events| - 1;
      RunErrorsAreSent(events[..n]);
      if events[n].Submit? { SubmittedIsNew(events, n); }
      StepErrorsAreSent(Run(events[..n]), events[n]);
    }
  }

  lemma NoErrorBeforeSubmit(events: seq<Event>, i: nat)
    requires Unique(events) && i < |events| && events[i].Submit?
    ensures events[i].op !in Run(events[..i]).errors
  {
    RunErrorsAreSent(events[..i]);
    SubmittedIsNew(events, i);
  }

  function ErrorOf(s: State, op: OpId): Option<Error> {
    if op in s.errors then Some(s.errors[op]) else None
  }

  lemma StepSetsError(s: State, op: OpId, request: RequestId, verdict: seq<Completion>, event: Event)
    requires Correlated(s, op, request, verdict)
    ensures ErrorOf(Step(s, event), op) == if IsSendError(event, request) then event.error else ErrorOf(s, op)
  {
  }

  lemma {:induction false} LastErrorRemains(
      s: State, later: seq<Event>, op: OpId, request: RequestId, verdict: seq<Completion>)
    requires Correlated(s, op, request, verdict) && Foreign(later, op, request)
    ensures ErrorOf(RunFrom(s, later), op) ==
            if LastError(request, later).Some? then LastError(request, later) else ErrorOf(s, op)
    decreases |later|
  {
    if later != [] {
      StepCorrelates(s, op, request, verdict, later[0]);
      StepSetsError(s, op, request, verdict, later[0]);
      var next := if verdict != [] then verdict else Verdict(op, request, later[0]);
      LastErrorRemains(Step(s, later[0]), later[1..], op, request, next);
    }
  }

  /**
   An operation ends with an error set if and only if some later send result for its request is an error,
   whether or not that error is what completed it.
   */
  lemma ErrorSetIff(events: seq<Event>, i: nat)
    requires Unique(events) && i < |events| && events[i].Submit?
    ensures events[i].op in Run(events).errors <==>
            exists event <- events[i + 1..] :: IsSendError(event, events[i].request)
  {
    NoErrorBeforeSubmit(events, i);
    SubmitCorrelates(events, i);
    CutAt(events, i);
    RunSplitsAround(events[..i], events[i], events[i + 1..]);
    LaterIsForeign(events, i);
    LastErrorRemains(
      Step(Run(events[..i]), events[i]), events[i + 1..], events[i].op, events[i].request, []);
    LastErrorIff(events[i].request, events[i + 1..]);
  }
}
