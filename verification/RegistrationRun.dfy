/** A registration from start to end on the machine object, so the run theorems are contracts of that object. */
module RegistrationRun {
  import opened Options
  import opened PollingReplies
  import opened PollingModel
  import opened PollingTheorems
  import opened PollingOutcomes
  import opened PollingMachine

  class Registration {
    const machine: Machine
    ghost var events: seq<Event>   // what has happened so far

    ghost predicate Valid()
      reads this, machine
    {
      machine.Current() == Run(events)
    }

    constructor ()
      ensures Valid() && fresh(machine) && events == []
    {
      machine := new Machine();
      events := [];
    }

    /**
     One more event.  As long as the run is good, the invariant holds, the machine stands where the verdict
     puts it, exactly the request that is due goes out, and the callbacks that have run are those that the
     verdict calls for, at most one.
     */
    method Handle(event: Event) returns (raised: bool)
      requires Valid()
      modifies this, machine
      ensures Valid() && events == old(events) + [event]
      ensures raised == StepOutcome(old(machine.Current()), event).raised
      ensures GoodRun(events) ==>
                Inv(machine.Current(), Latest(events)) && Agrees(machine.Current(), VerdictOf(events)) &&
                machine.calls == CallsOf(events) && |machine.calls| <= 1
      ensures GoodRun(old(events)) ==>
                machine.sent == old(machine.sent) + NextRequest(old(machine.Current()), event, Latest(old(events)))
    {
      raised := Dispatch(event);
      ghost var before := events;
      events := events + [event];
      RunOneMore(before, event);
      if GoodRun(events) {
        RunKeepsInv(events);
        RunAgreesWithVerdict(events);
        CallersHearTheVerdict(events);
        OneCallbackAtMost(events);
      }
      if GoodRun(before) {
        NextRequestCarriesLatest(before, event);
      }
    }

    method Dispatch(event: Event) returns (raised: bool)
      modifies machine
      ensures Outcome(machine.Current(), raised) == StepOutcome(old(machine.Current()), event)
    {
      match event
      case Register(callback) => raised := machine.Register(callback);
      case Cancel(callback) => raised := machine.Cancel(callback);
      case Subscribed(newId) => raised := machine.OnSubscribeCompleted(newId);
      case Response(request, status, retry, body) => raised := machine.ReceiveResponse(request, status, retry, body);
      case QueryTimeout => raised := machine.TimeUpQuery();
      case PollTimeout(newId) => raised := machine.TimeUpPolling(newId);
      case DisconnectDone(index) =>
        machine.OnDisconnectCompleted(index);
        raised := false;
    }
  }
}
