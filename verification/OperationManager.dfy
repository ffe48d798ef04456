/**
 OperationManager: pairs the acknowledgements that the MQTT library reports with the operations whose
 packet identifiers (MIDs) the pipeline establishes, in whichever order the two threads get there.
 A call is two steps, the region under the lock and the callback after it, and the steps of
 different calls interleave freely.  A MID may be used again once its operation is over.
 */
module OperationManager {
  import opened Options

  type Mid = nat
  type Callback = nat

  /** What a call does once it has released the lock. */
  datatype Trigger = Trigger(mid: Mid, callback: Option<Callback>)

  datatype State = State(
    pending: map<Mid, Option<Callback>>,   // _pending_operation_callbacks
    unknown: map<Mid, Mid>,                // _unknown_operation_completions
    waiting: seq<Trigger>,                 // calls between the lock and the callback
    triggered: seq<Trigger>,               // log: every trigger, in lock order
    fired: seq<Trigger>)                   // log: every trigger whose call has finished

  const INITIAL := State(map[], map[], [], [], [])

  datatype Event =
    | Establish(mid: Mid, callback: Option<Callback>)
    | Complete(mid: Mid)
    | Finish(index: nat)                   // one of the waiting calls goes on

  function Trip(s: State, trigger: Trigger): State {
    s.(waiting := s.waiting + [trigger], triggered := s.triggered + [trigger])
  }

  function Step(s: State, event: Event): State {
    match event
    case Establish(mid, callback) =>
      if mid in s.unknown then Trip(s.(unknown := s.unknown - {mid}), Trigger(mid, callback))
      else s.(pending := s.pending[mid := callback])
    case Complete(mid) =>
      if mid in s.pending then Trip(s.(pending := s.pending - {mid}), Trigger(mid, s.pending[mid]))
      else s.(unknown := s.unknown[mid := mid])
    case Finish(index) =>
      if index < |s.waiting| then
        s.(waiting := s.waiting[..index] + s.waiting[index + 1..], fired := s.fired + [s.waiting[index]])
      else s
  }

  function Run(events: seq<Event>): State {
    if events == [] then INITIAL else Step(Run(events[..|events| - 1]), events[|events| - 1])
  }

  class Manager {
    var pendingOperationCallbacks: map<Mid, Option<Callback>>
    var unknownOperationCompletions: map<Mid, Mid>

    ghost var waiting: seq<Trigger>
    ghost var triggered: seq<Trigger>
    ghost var fired: seq<Trigger>

    ghost function Current(): State
      reads this
    {
      State(pendingOperationCallbacks, unknownOperationCompletions, waiting, triggered, fired)
    }

    constructor ()
      ensures Current() == INITIAL
    {
      pendingOperationCallbacks, unknownOperationCompletions := map[], map[];
      waiting, triggered, fired := [], [], [];
    }

    /** The locked region of establish_operation; `trigger` is what the call goes on to do. */
    method EstablishOperation(mid: Mid, callback: Option<Callback>) returns (trigger: Option<Trigger>)
      modifies this
      ensures Current() == Step(old(Current()), Establish(mid, callback))
      ensures trigger == if mid in old(unknownOperationCompletions) then Some(Trigger(mid, callback)) else None
    {
      trigger := None;
      if mid in unknownOperationCompletions {
        unknownOperationCompletions := unknownOperationCompletions - {mid};
        trigger := Some(Trigger(mid, callback));
        waiting, triggered := waiting + [trigger.value], triggered + [trigger.value];
      } else {
        pendingOperationCallbacks := pendingOperationCallbacks[mid := callback];
      }
    }

    /** The locked region of complete_operation; `trigger` is what the call goes on to do. */
    method CompleteOperation(mid: Mid) returns (trigger: Option<Trigger>)
      modifies this
      ensures Current() == Step(old(Current()), Complete(mid))
      ensures trigger == if mid in old(pendingOperationCallbacks)
                         then Some(Trigger(mid, old(pendingOperationCallbacks)[mid])) else None
    {
      trigger := None;
      if mid in pendingOperationCallbacks {
        var callback := pendingOperationCallbacks[mid];
        pendingOperationCallbacks := pendingOperationCallbacks - {mid};
        trigger := Some(Trigger(mid, callback));
        waiting, triggered := waiting + [trigger.value], triggered + [trigger.value];
      } else {
        unknownOperationCompletions := unknownOperationCompletions[mid := mid];
      }
    }

    /** A call that has released the lock runs the callback it holds: the one at `index`, and no other. */
    ghost method FinishCall(index: nat)
      requires index < |waiting|
      modifies this
      ensures Current() == Step(old(Current()), Finish(index))
      ensures fired == old(fired) + [old(waiting)[index]]
    {
      fired := fired + [waiting[index]];
      waiting := waiting[..index] + waiting[index + 1..];
    }
  }

  // ----- what a run did to one MID -----

  /** The callbacks established for `mid`, in order. */
  function Established(events: seq<Event>, mid: Mid): seq<Option<Callback>> {
    if events == [] then []
    else
      var last := events[|events| - 1];
      Established(events[..|events| - 1], mid) +
      if last.Establish? && last.mid == mid then [last.callback] else []
  }

  /** How often an acknowledgement for `mid` arrived. */
  function Acknowledged(events: seq<Event>, mid: Mid): nat {
    if events == [] then 0
    else
      Acknowledged(events[..|events| - 1], mid) + if events[|events| - 1] == Complete(mid) then 1 else 0
  }

  /** The callbacks triggered for `mid`, in order. */
  function Triggered(log: seq<Trigger>, mid: Mid): seq<Option<Callback>> {
    if log == [] then []
    else
      var last := log[|log| - 1];
      Triggered(log[..|log| - 1], mid) + if last.mid == mid then [last.callback] else []
  }

  /**
   Unique in flight (section 2.3.1 of MQTT 3.1.1): at every moment the establishments of a MID and
   its acknowledgements differ by at most one, in either direction.
   */
  predicate UniqueInFlight(events: seq<Event>, mid: Mid) {
    -1 <= |Established(events, mid)| - Acknowledged(events, mid) <= 1 &&
    (events != [] ==> UniqueInFlight(events[..|events| - 1], mid))
  }

  /** The manager has matched the k-th establishment of `mid` with its k-th acknowledgement. */
  predicate Matched(s: State, established: seq<Option<Callback>>, acknowledged: nat, mid: Mid) {
    var both := if |established| < acknowledged then |established| else acknowledged;
    && (mid in s.pending <==> |established| == acknowledged + 1)
    && (mid in s.unknown <==> |established| + 1 == acknowledged)
    && (mid in s.pending ==> s.pending[mid] == established[acknowledged])
    && Triggered(s.triggered, mid) == established[..both]
  }

  lemma TriggeredOne(log: seq<Trigger>, trigger: Trigger, mid: Mid)
    ensures Triggered(log + [trigger], mid) ==
            Triggered(log, mid) + if trigger.mid == mid then [trigger.callback] else []
  {
    assert (log + [trigger])[..|log|] == log;
  }

  lemma EstablishKeepsMatched(
      s: State, established: seq<Option<Callback>>, acknowledged: nat, callback: Option<Callback>, mid: Mid)
    requires Matched(s, established, acknowledged, mid) && acknowledged - 1 <= |established| <= acknowledged
    ensures Matched(Step(s, Establish(mid, callback)), established + [callback], acknowledged, mid)
  {
    TriggeredOne(s.triggered, Trigger(mid, callback), mid);
    assert established[..|established|] == established && (established + [callback])[..|established|] == established;
  }

  lemma CompleteKeepsMatched(s: State, established: seq<Option<Callback>>, acknowledged: nat, mid: Mid)
    requires Matched(s, established, acknowledged, mid) && acknowledged <= |established| <= acknowledged + 1
    ensures Matched(Step(s, Complete(mid)), established, acknowledged + 1, mid)
  {
    if mid in s.pending {
      TriggeredOne(s.triggered, Trigger(mid, s.pending[mid]), mid);
      assert established[..acknowledged + 1] == established[..acknowledged] + [established[acknowledged]];
    }
  }

  lemma OthersKeepMatched(
      s: State, established: seq<Option<Callback>>, acknowledged: nat, event: Event, mid: Mid)
    requires Matched(s, established, acknowledged, mid)
    requires event.Finish? || event.mid != mid
    ensures Matched(Step(s, event), established, acknowledged, mid)
  {
    match event
    case Establish(other, callback) =>
      TriggeredOne(s.triggered, Trigger(other, callback), mid);
    case Complete(other) =>
      if other in s.pending {
        TriggeredOne(s.triggered, Trigger(other, s.pending[other]), mid);
      }
    case Finish(_) =>
  }

  /**
   Order independence: what the manager has triggered for a MID depends only on which callbacks were
   established and how many acknowledgements arrived, not on how they interleaved; its two maps hold
   exactly "established, not acknowledged" and "acknowledged, not established", so they share no MID.
   */
  lemma {:induction false} OrderIndependent(events: seq<Event>, mid: Mid)
    requires UniqueInFlight(events, mid)
    ensures Matched(Run(events), Established(events, mid), Acknowledged(events, mid), mid)
    decreases |events|
  {
    if events != [] {
      var before, last := events[..|events| - 1], events[|events| - 1];
      OrderIndependent(before, mid);
      var s, established, acknowledged := Run(before), Established(before, mid), Acknowledged(before, mid);
      if last.Finish? || last.mid != mid {
        OthersKeepMatched(s, established, acknowledged, last, mid);
        assert established + [] == established;
      } else if last.Establish? {
        EstablishKeepsMatched(s, established, acknowledged, last.callback, mid);
      } else {
        CompleteKeepsMatched(s, established, acknowledged, mid);
        assert established + [] == established;
      }
    }
  }

  /** At every moment of the run the manager has matched establishments and acknowledgements of `mid`. */
  predicate MatchedThroughout(events: seq<Event>, mid: Mid) {
    Matched(Run(events), Established(events, mid), Acknowledged(events, mid), mid) &&
    (events != [] ==> MatchedThroughout(events[..|events| - 1], mid))
  }

  /** A second establishment of a pending MID, or a second early acknowledgement, cannot be matched. */
  lemma CollisionIsNotMatched(
      s: State, established: seq<Option<Callback>>, acknowledged: nat, event: Event, mid: Mid)
    requires Matched(s, established, acknowledged, mid)
    requires (event.Establish? && event.mid == mid && |established| == acknowledged + 1) ||
             (event == Complete(mid) && acknowledged == |established| + 1)
    ensures event.Establish? ==> !Matched(Step(s, event), established + [event.callback], acknowledged, mid)
    ensures event.Complete? ==> !Matched(Step(s, event), established, acknowledged + 1, mid)
  {
  }

  /**
   The manager matches the callbacks of a MID with its acknowledgements at every moment of a run if and
   only if the MID is unique in flight throughout that run.
   */
  lemma {:induction false} MatchedIffUniqueInFlight(events: seq<Event>, mid: Mid)
    ensures MatchedThroughout(events, mid) <==> UniqueInFlight(events, mid)
    decreases |events|
  {
    if events != [] {
      var before, last := events[..|events| - 1], events[|events| - 1];
      MatchedIffUniqueInFlight(before, mid);
      if UniqueInFlight(events, mid) {
        OrderIndependent(events, mid);
      } else if UniqueInFlight(before, mid) {
        CollisionIsNotMatched(
          Run(before), Established(before, mid), Acknowledged(before, mid), last, mid);
      }
    }
  }

  function Times(log: seq<Trigger>, trigger: Trigger): nat {
    if log == [] then 0
    else Times(log[..|log| - 1], trigger) + if log[|log| - 1] == trigger then 1 else 0
  }

  lemma {:induction false} TimesConcat(log: seq<Trigger>, more: seq<Trigger>, trigger: Trigger)
    ensures Times(log + more, trigger) == Times(log, trigger) + Times(more, trigger)
    decreases |more|
  {
    if more == [] {
      assert log + more == log;
    } else {
      var n := |more| - 1;
      assert (log + more)[..|log| + n] == log + more[..n];
      TimesConcat(log, more[..n], trigger);
    }
  }

  lemma FinishMovesOne(s: State, index: nat, trigger: Trigger)
    requires index < |s.waiting|
    ensures var t := Step(s, Finish(index));
            t.triggered == s.triggered &&
            Times(t.waiting, trigger) + Times(t.fired, trigger) == Times(s.waiting, trigger) + Times(s.fired, trigger)
  {
    var head, one, tail := s.waiting[..index], [s.waiting[index]], s.waiting[index + 1..];
    assert s.waiting == head + one + tail;
    TimesConcat(head + one, tail, trigger);
    TimesConcat(head, one, trigger);
    TimesConcat(head, tail, trigger);
    TimesConcat(s.fired, one, trigger);
  }

  lemma TripAddsOne(s: State, added: Trigger, trigger: Trigger)
    ensures var t := Trip(s, added);
            Times(t.triggered, trigger) - Times(s.triggered, trigger) ==
            Times(t.waiting, trigger) - Times(s.waiting, trigger)
  {
    TimesConcat(s.triggered, [added], trigger);
    TimesConcat(s.waiting, [added], trigger);
  }

  predicate Conserved(s: State, trigger: Trigger) {
    Times(s.triggered, trigger) == Times(s.waiting, trigger) + Times(s.fired, trigger)
  }

  lemma StepConserves(s: State, event: Event, trigger: Trigger)
    requires Conserved(s, trigger)
    ensures Conserved(Step(s, event), trigger)
  {
    match event
    case Establish(mid, callback) =>
      TripAddsOne(s.(unknown := s.unknown - {mid}), Trigger(mid, callback), trigger);
    case Complete(mid) =>
      if mid in s.pending {
        TripAddsOne(s.(pending := s.pending - {mid}), Trigger(mid, s.pending[mid]), trigger);
      }
    case Finish(index) =>
      if index < |s.waiting| { FinishMovesOne(s, index, trigger); }
  }

  /** However the calls go on after the lock, each trigger fires once: it has fired or is about to. */
  lemma {:induction false} EachTriggerFiresOnce(events: seq<Event>, trigger: Trigger)
    ensures Conserved(Run(events), trigger)
    decreases |events|
  {
    if events != [] {
      EachTriggerFiresOnce(events[..|events| - 1], trigger);
      StepConserves(Run(events[..|events| - 1]), events[|events| - 1], trigger);
    }
  }

  function Completes(mid: Mid, n: nat): seq<Event> {
    if n == 0 then [] else [Complete(mid)] + Completes(mid, n - 1)
  }

  /** A MID that is established twice before it is acknowledged, and then acknowledged n times. */
  function Reuse(mid: Mid, first: Option<Callback>, second: Option<Callback>, n: nat): seq<Event> {
    [Establish(mid, first)] + [Establish(mid, second)] + Completes(mid, n)
  }

  lemma EstablishedTwice(mid: Mid, first: Option<Callback>, second: Option<Callback>)
    ensures var s := Run([Establish(mid, first)] + [Establish(mid, second)]);
            s.pending == map[mid := second] && s.triggered == []
  {
    var e1, e2 := Establish(mid, first), Establish(mid, second);
    RunSplits([], [e1] + [e2]);
    assert [] + ([e1] + [e2]) == [e1] + [e2] && ([e1] + [e2])[1..] == [e2] && [e2][1..] == [];
    assert map[mid := first][mid := second] == map[mid := second];
  }

  /** What is left of a reused MID after n acknowledgements. */
  predicate OnlySecond(s: State, mid: Mid, second: Option<Callback>, n: nat) {
    s.pending == (if n == 0 then map[mid := second] else map[]) &&
    s.triggered == if n == 0 then [] else [Trigger(mid, second)]
  }

  lemma CompleteKeepsOnlySecond(s: State, mid: Mid, second: Option<Callback>, n: nat)
    requires OnlySecond(s, mid, second, n)
    ensures OnlySecond(Step(s, Complete(mid)), mid, second, n + 1)
  {
    assert map[mid := second] - {mid} == map[];
  }

  lemma {:induction false} CompletesKeepOnlySecond(s: State, mid: Mid, second: Option<Callback>, n: nat, more: nat)
    requires OnlySecond(s, mid, second, n)
    ensures OnlySecond(RunFrom(s, Completes(mid, more)), mid, second, n + more)
    decreases more
  {
    if more > 0 {
      assert Completes(mid, more)[0] == Complete(mid) && Completes(mid, more)[1..] == Completes(mid, more - 1);
      CompleteKeepsOnlySecond(s, mid, second, n);
      CompletesKeepOnlySecond(Step(s, Complete(mid)), mid, second, n + 1, more - 1);
    }
  }

  /** From the very start: the first callback is lost for good, whatever acknowledgements follow. */
  lemma ReusedInFlightLosesCallback(mid: Mid, first: Option<Callback>, second: Option<Callback>, n: nat)
    ensures OnlySecond(Run(Reuse(mid, first, second, n)), mid, second, n)
  {
    var start := [Establish(mid, first)] + [Establish(mid, second)];
    EstablishedTwice(mid, first, second);
    RunSplits(start, Completes(mid, n));
    CompletesKeepOnlySecond(Run(start), mid, second, 0, n);
  }

  // ----- every call gets to its callback -----

  function Finishes(n: nat): seq<Event> {
    if n == 0 then [] else [Finish(0)] + Finishes(n - 1)
  }

  function RunFrom(s: State, events: seq<Event>): State
    decreases |events|
  {
    if events == [] then s else RunFrom(Step(s, events[0]), events[1..])
  }

  lemma {:induction false} RunFromLast(s: State, events: seq<Event>, event: Event)
    ensures RunFrom(s, events + [event]) == Step(RunFrom(s, events), event)
    decreases |events|
  {
    var all := events + [event];
    if events == [] {
      assert all[0] == event && all[1..] == [];
    } else {
      assert all[0] == events[0] && all[1..] == events[1..] + [event];
      RunFromLast(Step(s, events[0]), events[1..], event);
    }
  }

  lemma {:induction false} RunSplits(earlier: seq<Event>, later: seq<Event>)
    ensures Run(earlier + later) == RunFrom(Run(earlier), later)
    decreases |later|
  {
    if later == [] {
      assert earlier + later == earlier;
    } else {
      var n := |later| - 1;
      assert (earlier + later)[..|earlier| + n] == earlier + later[..n];
      RunSplits(earlier, later[..n]);
      RunFromLast(Run(earlier), later[..n], later[n]);
      assert later[..n] + [later[n]] == later;
    }
  }

  /** The first n waiting calls have run their callbacks. */
  function Drained(s: State, n: nat): State
    requires n <= |s.waiting|
  {
    s.(waiting := s.waiting[n..], fired := s.fired + s.waiting[..n])
  }

  lemma FinishDrainsOne(s: State, n: nat)
    requires 0 < n <= |s.waiting|
    ensures Drained(Step(s, Finish(0)), n - 1) == Drained(s, n)
  {
    var t := Step(s, Finish(0));
    assert t.waiting == s.waiting[1..];
    assert s.fired + [s.waiting[0]] + s.waiting[1..][..n - 1] == s.fired + s.waiting[..n];
  }

  lemma {:induction false} FinishesDrain(s: State, n: nat)
    requires n <= |s.waiting|
    ensures RunFrom(s, Finishes(n)) == Drained(s, n)
    decreases n
  {
    if n == 0 {
      assert s.fired + s.waiting[..0] == s.fired && s.waiting[0..] == s.waiting;
    } else {
      assert Finishes(n)[0] == Finish(0) && Finishes(n)[1..] == Finishes(n - 1);
      FinishDrainsOne(s, n);
      FinishesDrain(Step(s, Finish(0)), n - 1);
    }
  }

  /**
   Once the calls that wait have gone on, nothing waits, the maps are as they were, and every trigger has
   fired exactly as often as it was triggered.
   */
  lemma EveryTriggerFires(events: seq<Event>)
    ensures var s := Run(events);
            var t := Run(events + Finishes(|s.waiting|));
            t.waiting == [] && t.fired == s.fired + s.waiting && t.pending == s.pending && t.unknown == s.unknown &&
            forall trigger :: Times(t.fired, trigger) == Times(s.triggered, trigger)
  {
    var s := Run(events);
    RunSplits(events, Finishes(|s.waiting|));
    FinishesDrain(s, |s.waiting|);
    assert s.waiting[..|s.waiting|] == s.waiting;
    forall trigger
      ensures Times(s.fired + s.waiting, trigger) == Times(s.triggered, trigger)
    {
      TimesConcat(s.fired, s.waiting, trigger);
      EachTriggerFiresOnce(events, trigger);
    }
  }

  lemma {:induction false} TimesIsCount(log: seq<Trigger>, mid: Mid, callback: Option<Callback>)
    ensures multiset(Triggered(log, mid))[callback] == Times(log, Trigger(mid, callback))
    decreases |log|
  {
    if log != [] {
      TimesIsCount(log[..|log| - 1], mid, callback);
    }
  }

  /**
   With a MID unique in flight: once the calls that wait have gone on, the callbacks that have run for it are
   those of its first establishments, as many as have been acknowledged, each exactly once.
   */
  lemma CallbacksFireExactlyOnce(events: seq<Event>, mid: Mid)
    requires UniqueInFlight(events, mid)
    ensures var t := Run(events + Finishes(|Run(events).waiting|));
            var established, acknowledged := Established(events, mid), Acknowledged(events, mid);
            var both := if |established| < acknowledged then |established| else acknowledged;
            multiset(Triggered(t.fired, mid)) == multiset(established[..both])
  {
    var s := Run(events);
    var t := Run(events + Finishes(|s.waiting|));
    EveryTriggerFires(events);
    OrderIndependent(events, mid);
    forall callback
      ensures multiset(Triggered(t.fired, mid))[callback] == multiset(Triggered(s.triggered, mid))[callback]
    {
      TimesIsCount(t.fired, mid, callback);
      TimesIsCount(s.triggered, mid, callback);
    }
  }

  /** One call that goes on runs the callback it holds, and only that. */
  lemma FinishFiresItsOwn(s: State, index: nat)
    requires index < |s.waiting|
    ensures var t := Step(s, Finish(index));
            t.fired == s.fired + [s.waiting[index]] && t.triggered == s.triggered &&
            t.pending == s.pending && t.unknown == s.unknown && |t.waiting| == |s.waiting| - 1 &&
            forall i | 0 <= i < |t.waiting| :: t.waiting[i] == s.waiting[if i < index then i else i + 1]
  {
  }
}
