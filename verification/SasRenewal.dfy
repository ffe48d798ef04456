/**
 The renewal timer of a shared access signature.  Time is a real number of seconds; the expiry written
 into a token is a whole number of seconds.
 */
module SasRenewal {
  import opened Options

  const VALIDITY_PERIOD := 3600
  const RENEWAL_MARGIN := 120

  /** A running timer and the moment it is due. */
  datatype Timer = Timer(id: nat, due: real)

  datatype State = State(
    expiry: Option<int>,        // the se= field of the current token
    slot: Option<nat>,          // _token_update_timer
    running: seq<Timer>,        // every timer that was started and neither cancelled nor fired
    created: nat,               // how many timers were made
    clock: real)

  const INITIAL := State(None, None, [], 0, 0.0)

  datatype Event =
    | Generate(start: real, now: real)           // generate_new_sas_token called from outside
    | Fire(index: nat, start: real, now: real)   // one of the running timers fires
    | Disconnect(now: real)
    | Pass(now: real)                            // time goes by

  function Without(running: seq<Timer>, slot: Option<nat>): seq<Timer> {
    if running == [] then []
    else (if slot == Some(running[0].id) then [] else [running[0]]) + Without(running[1..], slot)
  }

  /** _cancel_token_update_timer */
  function CancelTimer(s: State): State {
    s.(slot := None, running := Without(s.running, s.slot))
  }

  /**
   generate_new_sas_token with _schedule_token_update: the expiry is computed at `start`, then the token is
   signed, which may take a while, and the timer is started at `now`.
   */
  function Renew(s: State, start: real, now: real): State {
    var s0 := CancelTimer(s);
    s0.(expiry := Some(start.Floor + VALIDITY_PERIOD),
        slot := Some(s0.created),
        running := s0.running + [Timer(s0.created, now + (VALIDITY_PERIOD - RENEWAL_MARGIN) as real)],
        created := s0.created + 1,
        clock := now)
  }

  function Step(s: State, event: Event): State {
    match event
    case Generate(start, now) => Renew(s, start, now)
    case Fire(index, start, now) =>
      if index < |s.running| then Renew(s.(running := s.running[..index] + s.running[index + 1..]), start, now) else s
    case Disconnect(now) => CancelTimer(s).(clock := now)
    case Pass(now) => s.(clock := now)
  }

  class Provider {
    var expiry: Option<int>
    var slot: Option<nat>
    var running: seq<Timer>
    var created: nat
    var clock: real

    ghost function Current(): State
      reads this
    {
      State(expiry, slot, running, created, clock)
    }

    constructor ()
      ensures Current() == INITIAL
    {
      expiry, slot, running, created, clock := None, None, [], 0, 0.0;
    }

    method CancelTokenUpdateTimer()
      modifies this
      ensures Current() == CancelTimer(old(Current()))
    {
      running := Without(running, slot);
      slot := None;
    }

    method GenerateNewSasToken(start: real, now: real)
      modifies this
      ensures Current() == Renew(old(Current()), start, now)
    {
      expiry := Some(start.Floor + VALIDITY_PERIOD);
      ScheduleTokenUpdate(now, VALIDITY_PERIOD - RENEWAL_MARGIN);
      clock := now;
    }

    method ScheduleTokenUpdate(now: real, secondsUntilUpdate: int)
      modifies this
      ensures var s := CancelTimer(old(Current()));
              Current() == s.(slot := Some(s.created), created := s.created + 1,
                              running := s.running + [Timer(s.created, now + secondsUntilUpdate as real)])
    {
      CancelTokenUpdateTimer();
      slot := Some(created);
      running := running + [Timer(created, now + secondsUntilUpdate as real)];
      created := created + 1;
    }

    method TimerFires(index: nat, start: real, now: real)
      modifies this
      ensures Current() == Step(old(Current()), Fire(index, start, now))
    {
      if index < |running| {
        running := running[..index] + running[index + 1..];
        GenerateNewSasToken(start, now);
      }
    }
  }

  /**
   Timers fire no earlier than they are due, the clock never passes a due time by more than `latency`, and
   computing the expiry and signing take no longer than `signing`.
   */
  predicate Punctual(s: State, event: Event, latency: real, signing: real) {
    event.now >= s.clock &&
    match event
    case Generate(start, now) => s.clock <= start <= now <= start + signing
    case Fire(index, start, now) =>
      s.clock <= start <= now <= start + signing && (index < |s.running| ==> s.running[index].due <= start)
    case Disconnect(now) => forall timer <- s.running :: now <= timer.due + latency
    case Pass(now) => forall timer <- s.running :: now <= timer.due + latency
  }

  /**
   At most one timer runs, it is the one in the slot, and when it is due the token has more than the
   renewal margin, less a second and the time for signing, left to live.
   */
  predicate Inv(s: State, latency: real, signing: real) {
    |s.running| <= 1 &&
    forall timer <- s.running ::
      s.slot == Some(timer.id) && s.expiry.Some? &&
      s.expiry.value as real > timer.due + (RENEWAL_MARGIN - 1) as real - signing &&
      s.clock <= timer.due + latency
  }

  lemma StepKeepsInv(s: State, event: Event, latency: real, signing: real)
    requires latency >= 0.0 && Inv(s, latency, signing) && Punctual(s, event, latency, signing)
    ensures Inv(Step(s, event), latency, signing)
  {
    if |s.running| == 1 {
      assert s.running[1..] == [] && s.running[0] in s.running;
      assert Without(s.running[1..], s.slot) == [];
      assert Without(s.running, s.slot) == [];
      if event.Fire? && event.index == 0 {
        assert s.running[..0] + s.running[1..] == [];
      }
    }
  }

  function Run(events: seq<Event>): State {
    if events == [] then INITIAL else Step(Run(events[..|events| - 1]), events[|events| - 1])
  }

  predicate PunctualRun(events: seq<Event>, latency: real, signing: real) {
    forall i | 0 <= i < |events| :: Punctual(Run(events[..i]), events[i], latency, signing)
  }

  /**
   Over any run of renewals, cancellations and timer firings there is never more than one running timer,
   and as long as one runs the current token outlives the present moment by more than 119 seconds minus
   the scheduling latency and the time for signing.
   */
  lemma {:induction false} TokenOutlivesTimer(events: seq<Event>, latency: real, signing: real)
    requires latency >= 0.0 && PunctualRun(events, latency, signing)
    ensures var s := Run(events);
            Inv(s, latency, signing) &&
            (s.running != [] ==>
               s.expiry.Some? &&
               s.expiry.value as real - s.clock > (RENEWAL_MARGIN - 1) as real - latency - signing)
    decreases |events|
  {
    if events != [] {
      var n := |events| - 1;
      assert forall i | 0 <= i < n :: events[..n][..i] == events[..i] && events[..n][i] == events[i];
      TokenOutlivesTimer(events[..n], latency, signing);
      StepKeepsInv(Run(events[..n]), events[n], latency, signing);
    }
    var s := Run(events);
    if s.running != [] {
      assert s.running[0] in s.running;
    }
  }

  /**
   A renewal, from outside or by its timer, leaves exactly one timer, due 58 minutes from now, and a token that
   expires an hour after the renewal began; a disconnect leaves no timer.
   */
  lemma RenewalLeavesOneTimer(s: State, event: Event, latency: real, signing: real)
    requires Inv(s, latency, signing)
    requires event.Generate? || event.Disconnect? || (event.Fire? && event.index < |s.running|)
    ensures var t := Step(s, event);
            if event.Disconnect? then t.running == [] && t.slot.None? && t.expiry == s.expiry
            else
              |t.running| == 1 && t.running[0].due == event.now + 3480.0 && t.slot == Some(t.running[0].id) &&
              t.expiry == Some(event.start.Floor + 3600)
  {
    assert s.running != [] ==> s.running[0] in s.running && s.running[1..] == [];
    assert Without(s.running, s.slot) == [];
    if event.Fire? {
      assert s.running[..event.index] + s.running[event.index + 1..] == [];
    }
  }

  /** Over any run: after a renewal there is such a timer and such a token. */
  lemma RunRenews(events: seq<Event>, event: Event, latency: real, signing: real)
    requires latency >= 0.0 && PunctualRun(events, latency, signing)
    requires event.Generate? || (event.Fire? && event.index < |Run(events).running|)
    ensures var t := Run(events + [event]);
            |t.running| == 1 && t.running[0].due == event.now + 3480.0 && t.slot == Some(t.running[0].id) &&
            t.expiry == Some(event.start.Floor + 3600)
  {
    assert (events + [event])[..|events|] == events;
    TokenOutlivesTimer(events, latency, signing);
    RenewalLeavesOneTimer(Run(events), event, latency, signing);
  }
}
