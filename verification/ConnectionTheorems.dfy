/** Whole-run theorems about the connection pipeline, for every interleaving of its tasks. */
module ConnectionTheorems {
  import opened Options
  import opened ConnectionModel
  import opened ConnectionFlat

  predicate ProperRun(turns: seq<Turn>) {
    forall turn <- turns :: Proper(turn)
  }

  // ----- serialization: the cancel branch of the transport is unreachable -----

  /**
   Between tasks the serialize stage is blocked exactly while the transport holds a pending
   operation, that operation is a connection operation, no other one is below the stage, and no
   pending operation was ever cancelled.
   */
  lemma {:induction false} RunNeverCancels(turns: seq<Turn>)
    requires ProperRun(turns)
    ensures Settled(Run(INITIAL, turns))
    ensures Run(INITIAL, turns).cancelled == []
    decreases |turns|
  {
    if turns != [] {
      var n := |turns| - 1;
      RunNeverCancels(turns[..n]);
      FlatStepIsStep(Run(INITIAL, turns[..n]), turns[n]);
    }
  }

  // ----- conservation: every operation is in one place or has completed once -----

  /** How many of `ops` travel on behalf of the submitted operation `id`. */
  function Holds(ops: seq<Op>, id: OpId): nat {
    if ops == [] then 0
    else Holds(ops[..|ops| - 1], id) + if Root(ops[|ops| - 1]) == id then 1 else 0
  }

  /** How often the callback of `id` ran. */
  function Completions(log: seq<Completion>, id: OpId): nat {
    if log == [] then 0
    else Completions(log[..|log| - 1], id) + if log[|log| - 1].id == id then 1 else 0
  }

  /** In how many places of the pipeline `id` is: the queue, the acknowledgement map, the pending slot. */
  function Places(s: State, id: OpId): nat {
    Holds(s.queue, id) + Holds(s.awaitingAck, id) + if s.pending.Some? && Root(s.pending.value) == id then 1 else 0
  }

  function Accounted(s: State, id: OpId): nat {
    Places(s, id) + Completions(s.completed, id)
  }

  function Is(id: OpId, other: OpId): nat {
    if id == other then 1 else 0
  }

  lemma {:induction false} HoldsConcat(ops: seq<Op>, more: seq<Op>, id: OpId)
    ensures Holds(ops + more, id) == Holds(ops, id) + Holds(more, id)
    decreases |more|
  {
    if more == [] {
      assert ops + more == ops;
    } else {
      var n := |more| - 1;
      assert (ops + more)[..|ops| + n] == ops + more[..n];
      HoldsConcat(ops, more[..n], id);
    }
  }

  lemma HoldsOne(op: Op, id: OpId)
    ensures Holds([op], id) == Is(Root(op), id)
  {
    assert [op][..0] == [];
  }

  lemma DoneAccounts(s: State, done: Name, error: Option<Error>, id: OpId)
    ensures Accounted(Done(s, done, error), id) == Accounted(s, id) + Is(done.id, id)
  {
    var log := s.completed + [Completion(done.id, done.kind, error)];
    assert log[..|log| - 1] == s.completed;
  }

  lemma TransmitAccounts(env: Outcomes, s: State, op: Op, id: OpId)
    requires op.callback.Upper?
    ensures Accounted(Transmit(env, s, op), id) == Accounted(s, id) + Is(op.id, id)
  {
    if op.id !in env {
      HoldsConcat(s.awaitingAck, [op], id);
      HoldsOne(op, id);
    } else {
      DoneAccounts(HandDown(s, op), NameOf(op), if env[op.id].Refused? then Some(env[op.id].error) else None, id);
    }
  }

  lemma PassedAccounts(env: Outcomes, s: State, op: Op, id: OpId)
    requires Fresh(op) && !s.blocked && !ChangesConnection(op.kind)
    ensures Accounted(Admit(env, s, op), id) == Accounted(s, id) + Is(op.id, id)
  {
    if NeedsConnection(op.kind) {
      TransmitAccounts(env, Depart(s, op), op, id);
    } else {
      DoneAccounts(HandDown(Depart(s, op), op), NameOf(op), Some(NotHandled), id);
    }
  }

  lemma AnsweredAccounts(env: Outcomes, s: State, op: Op, id: OpId)
    requires Fresh(op) && !s.blocked && if s.connected then op.kind.Connect? else op.kind.Disconnect?
    ensures Accounted(Admit(env, s, op), id) == Accounted(s, id) + Is(Root(op), id)
  {
    if op.callback.AfterConnect? {
      var parked := op.callback.parked;
      TransmitAccounts(env, Depart(Depart(s, op), parked), parked, id);
      assert Root(op) == Root(parked) == parked.id;
    } else {
      DoneAccounts(Depart(s, op), NameOf(op), None, id);
    }
  }

  lemma AdmitAccounts(env: Outcomes, s: State, op: Op, id: OpId)
    requires Settled(s) && Fresh(op)
    ensures Accounted(Admit(env, s, op), id) == Accounted(s, id) + Is(Root(op), id)
  {
    if s.blocked {
      HoldsConcat(s.queue, [op], id);
      HoldsOne(op, id);
    } else if !ChangesConnection(op.kind) {
      PassedAccounts(env, s, op, id);
    } else if if s.connected then op.kind.Connect? else op.kind.Disconnect? {
      AnsweredAccounts(env, s, op, id);
    } else if Refuses(env, op) {
      DoneAccounts(HandDown(Depart(s, op), op), Origin(op), Some(env[op.id].error), id);
    }
  }

  lemma {:induction false} AdmitAllAccounts(env: Outcomes, s: State, ops: seq<Op>, id: OpId)
    requires Settled(s) && forall op <- ops :: Fresh(op)
    ensures Accounted(AdmitAll(env, s, ops), id) == Accounted(s, id) + Holds(ops, id)
    decreases |ops|
  {
    if ops != [] {
      AdmitSettles(env, s, ops[0]);
      AdmitAccounts(env, s, ops[0], id);
      AdmitAllAccounts(env, Admit(env, s, ops[0]), ops[1..], id);
      assert ops == [ops[0]] + ops[1..];
      HoldsConcat([ops[0]], ops[1..], id);
      HoldsOne(ops[0], id);
    }
  }

  lemma SucceedAccounts(env: Outcomes, s: State, op: Op, id: OpId)
    requires Shaped(s) && Below(op) && s.pending == Some(op)
    ensures Accounted(Succeed(env, s, op), id) == Accounted(s, id)
  {
    var s0 := s.(blocked := false, pending := None, queue := []);
    var s1 := AdmitAll(env, s0, s.queue);
    AdmitAllAccounts(env, s0, s.queue, id);
    if op.callback.saved.AfterConnect? {
      var parked := op.callback.saved.parked;
      ReleaseIsAdmitAll(env, s0, s.queue);
      AdmitAccounts(env, s1, parked, id);
      OriginBelow(op);
    } else {
      OriginBelow(op);
      DoneAccounts(s1, NameOf(op), None, id);
    }
  }

  lemma {:induction false} FailuresAccount(log: seq<Completion>, ops: seq<Op>, error: Error, id: OpId)
    ensures Completions(log + Failures(ops, error), id) == Completions(log, id) + Holds(ops, id)
    decreases |ops|
  {
    var all := log + Failures(ops, error);
    if ops == [] {
      assert all == log;
    } else {
      var n := |ops| - 1;
      FailuresAccount(log, ops[..n], error, id);
      assert all[..|all| - 1] == log + Failures(ops[..n], error);
    }
  }

  lemma FailAccounts(s: State, op: Op, error: Error, id: OpId)
    requires s.pending == Some(op)
    ensures Accounted(Fail(s, op, error), id) == Accounted(s, id)
  {
    var s0 := s.(blocked := false, pending := None, queue := []);
    FailuresAccount(s.completed, s.queue, error, id);
    DoneAccounts(FailAll(s0, s.queue, error), Origin(op), Some(error), id);
  }

  lemma AckAccounts(s: State, index: nat, id: OpId)
    requires Shaped(s) && index < |s.awaitingAck|
    ensures var rest := s.(awaitingAck := s.awaitingAck[..index] + s.awaitingAck[index + 1..]);
            Accounted(Done(rest, NameOf(s.awaitingAck[index]), None), id) == Accounted(s, id)
  {
    var acks := s.awaitingAck;
    var rest := s.(awaitingAck := acks[..index] + acks[index + 1..]);
    DoneAccounts(rest, NameOf(acks[index]), None, id);
    HoldsOne(acks[index], id);
    HoldsConcat(acks[..index], acks[index + 1..], id);
    HoldsConcat(acks[..index], [acks[index]], id);
    HoldsConcat(acks[..index] + [acks[index]], acks[index + 1..], id);
    assert acks == acks[..index] + [acks[index]] + acks[index + 1..];
  }

  function SubmittedIn(turn: Turn): seq<OpId> {
    if turn.task.Submit? then [turn.task.op.id] else []
  }

  function Submitted(turns: seq<Turn>): seq<OpId> {
    if turns == [] then [] else Submitted(turns[..|turns| - 1]) + SubmittedIn(turns[|turns| - 1])
  }

  /** How often `id` was submitted. */
  function Submissions(turns: seq<Turn>, id: OpId): nat {
    if turns == [] then 0
    else Submissions(turns[..|turns| - 1], id) + if SubmittedIn(turns[|turns| - 1]) == [id] then 1 else 0
  }

  lemma SubmitAccounts(env: Outcomes, s: State, op: Op, id: OpId)
    requires Settled(s) && Plain(op)
    ensures Accounted(Admit(env, s, Arrival(s, op)), id) == Accounted(s, id) + Is(op.id, id)
  {
    AdmitAccounts(env, s, Arrival(s, op), id);
    assert Root(Arrival(s, op)) == Root(op) == op.id;
  }

  lemma PendingEndsAccounts(env: Outcomes, s: State, error: Option<Error>, id: OpId)
    requires Shaped(s) && s.pending.Some? && Below(s.pending.value)
    ensures var op := s.pending.value;
            Accounted(if error.Some? then Fail(s, op, error.value) else Succeed(env, s, op), id) == Accounted(s, id)
  {
    if error.Some? {
      FailAccounts(s, s.pending.value, error.value, id);
    } else {
      SucceedAccounts(env, s, s.pending.value, id);
    }
  }

  lemma DropAccounts(env: Outcomes, s: State, drop: Option<Error>, id: OpId)
    requires Settled(s)
    ensures Accounted(FlatStep(s, Turn(Disconnected(drop), env)), id) == Accounted(s, id)
  {
    var s0 := s.(connected := false);
    assert Accounted(s0, id) == Accounted(s, id);
    if s.pending.Some? { PendingEndsAccounts(env, s0, DropError(drop), id); }
  }

  lemma OpenedAccounts(env: Outcomes, s: State, id: OpId)
    requires Settled(s)
    ensures Accounted(FlatStep(s, Turn(Connected, env)), id) == Accounted(s, id)
  {
    var s0 := s.(connected := true);
    assert Accounted(s0, id) == Accounted(s, id);
    if s.pending.Some? { PendingEndsAccounts(env, s0, None, id); }
  }

  lemma EventAccounts(s: State, turn: Turn, id: OpId)
    requires Settled(s) && !turn.task.Submit?
    ensures Accounted(FlatStep(s, turn), id) == Accounted(s, id)
  {
    match turn.task
    case Connected =>
      OpenedAccounts(turn.env, s, id);
    case ConnectionFailed(cause) =>
      if s.pending.Some? { PendingEndsAccounts(turn.env, s, Some(cause), id); }
    case Disconnected(drop) =>
      DropAccounts(turn.env, s, drop, id);
    case Acked(index) =>
      if index < |s.awaitingAck| { AckAccounts(s, index, id); }
  }

  lemma FlatStepAccounts(s: State, turn: Turn, id: OpId)
    requires Settled(s) && Proper(turn)
    ensures Accounted(FlatStep(s, turn), id) == Accounted(s, id) + if SubmittedIn(turn) == [id] then 1 else 0
  {
    if turn.task.Submit? {
      SubmitAccounts(turn.env, s, turn.task.op, id);
      assert SubmittedIn(turn)[0] == turn.task.op.id;
    } else {
      EventAccounts(s, turn, id);
    }
  }

  /**
   Exactly-once completion, counted: however tasks interleave, the places that hold an operation and
   the runs of its callback add up to the number of times it was submitted.  For an operation that is
   submitted once this says: one place and no callback yet, or no place and one callback; and
   nothing completes that was not submitted.
   */
  lemma {:induction false} ExactlyOnce(turns: seq<Turn>, id: OpId)
    requires ProperRun(turns)
    ensures var s := Run(INITIAL, turns);
            Places(s, id) + Completions(s.completed, id) == Submissions(turns, id)
    decreases |turns|
  {
    if turns != [] {
      var n := |turns| - 1;
      var s := Run(INITIAL, turns[..n]);
      ExactlyOnce(turns[..n], id);
      RunNeverCancels(turns[..n]);
      FlatStepIsStep(s, turns[n]);
      FlatStepAccounts(s, turns[n], id);
    }
  }

  // ----- safety: who is handed to the transport while disconnected -----

  /** The operations that only make sense over a connection. */
  predicate IsTraffic(kind: Kind) {
    kind.Publish? || kind.Subscribe? || kind.Unsubscribe?
  }

  /** The step from s to t hands down an operation that needs a connection while there is none. */
  predicate HandsDownUnconnected(s: State, t: State) {
    exists i :: |s.handed| <= i < |t.handed| && IsTraffic(t.handed[i].kind) && !t.handed[i].connected
  }

  /**
   Some operation that needs a connection stands in the queue ahead of every connect or reconnect
   that the transport accepts.
   */
  predicate Stranded(env: Outcomes, queue: seq<Op>) {
    queue != [] &&
    (IsTraffic(queue[0].kind) ||
     ((OpensConnection(queue[0].kind) ==> Refuses(env, queue[0])) && Stranded(env, queue[1..])))
  }

  lemma AdmitHands(env: Outcomes, s: State, op: Op)
    requires Settled(s) && Fresh(op)
    ensures var t := Admit(env, s, op);
            s.handed <= t.handed &&
            (HandsDownUnconnected(s, t) <==> !s.blocked && !s.connected && IsTraffic(op.kind))
  {
    var t := Admit(env, s, op);
    if !s.blocked && !s.connected && NeedsConnection(op.kind) {
      assert t.handed == s.handed + [Handed(op.id, op.kind, false)];
      assert t.handed[|s.handed|] == Handed(op.id, op.kind, false);
    }
  }

  lemma {:induction false} AdmitAllBlocked(env: Outcomes, s: State, ops: seq<Op>)
    requires s.blocked
    ensures AdmitAll(env, s, ops) == s.(queue := s.queue + ops)
    decreases |ops|
  {
    if ops == [] {
      assert s.queue + ops == s.queue;
    } else {
      AdmitAllBlocked(env, s.(queue := s.queue + [ops[0]]), ops[1..]);
      assert s.queue + [ops[0]] + ops[1..] == s.queue + ops;
    }
  }

  lemma {:induction false} AdmitAllHands(env: Outcomes, s: State, ops: seq<Op>)
    requires Settled(s) && !s.blocked && forall op <- ops :: Fresh(op)
    ensures var t := AdmitAll(env, s, ops);
            s.handed <= t.handed &&
            (HandsDownUnconnected(s, t) <==> !s.connected && Stranded(env, ops))
    decreases |ops|
  {
    if ops != [] {
      var m := Admit(env, s, ops[0]);
      var t := AdmitAll(env, s, ops);
      AdmitHands(env, s, ops[0]);
      AdmitSettles(env, s, ops[0]);
      if m.blocked {
        AdmitAllBlocked(env, m, ops[1..]);
        assert t.handed == m.handed;
      } else {
        AdmitAllHands(env, m, ops[1..]);
      }
      HandsDownSplits(s, m, t);
    }
  }

  /** The task completes, without error, a disconnect behind which some operation is stranded. */
  predicate StrandsOperation(s: State, turn: Turn) {
    turn.task.Disconnected? && turn.task.drop.None? &&
    s.pending.Some? && s.pending.value.kind.Disconnect? &&
    Stranded(turn.env, s.queue)
  }

  /** The exact condition under which one task breaks "hand down only while connected". */
  lemma StepHandsDownUnconnectedIff(s: State, turn: Turn)
    requires Settled(s) && Proper(turn)
    ensures s.handed <= Step(s, turn).handed
    ensures HandsDownUnconnected(s, Step(s, turn)) <==> StrandsOperation(s, turn)
  {
    FlatStepIsStep(s, turn);
    match turn.task
    case Submit(op) =>
      AdmitHands(turn.env, s, Arrival(s, op));
    case Connected =>
      if s.pending.Some? { SucceedHands(turn.env, s.(connected := true), s.pending.value); }
    case ConnectionFailed(cause) =>
    case Disconnected(drop) =>
      if s.pending.Some? { SucceedHands(turn.env, s.(connected := false), s.pending.value); }
    case Acked(index) =>
  }

  lemma SucceedHands(env: Outcomes, s: State, op: Op)
    requires Shaped(s) && Below(op)
    ensures s.handed <= Succeed(env, s, op).handed
    ensures s.connected ==> !HandsDownUnconnected(s, Succeed(env, s, op))
    ensures !s.connected && !op.kind.Connect? ==>
              (HandsDownUnconnected(s, Succeed(env, s, op)) <==> Stranded(env, s.queue))
  {
    var s0 := s.(blocked := false, pending := None, queue := []);
    AdmitAllHands(env, s0, s.queue);
    ReleaseIsAdmitAll(env, s0, s.queue);
    var s1 := AdmitAll(env, s0, s.queue);
    assert HandsDownUnconnected(s, s1) <==> HandsDownUnconnected(s0, s1);
    if op.callback.saved.AfterConnect? {
      AdmitHands(env, s1, op.callback.saved.parked);
      HandsDownSplits(s, s1, Succeed(env, s, op));
    }
  }

  /** Unsafe hand-downs of two consecutive stretches of a run add up. */
  lemma HandsDownSplits(s: State, m: State, t: State)
    requires s.handed <= m.handed <= t.handed
    ensures HandsDownUnconnected(s, t) <==> HandsDownUnconnected(s, m) || HandsDownUnconnected(m, t)
  {
    if HandsDownUnconnected(s, m) {
      var i :| |s.handed| <= i < |m.handed| && IsTraffic(m.handed[i].kind) && !m.handed[i].connected;
      assert t.handed[i] == m.handed[i];
    }
    if HandsDownUnconnected(s, t) {
      var i :| |s.handed| <= i < |t.handed| && IsTraffic(t.handed[i].kind) && !t.handed[i].connected;
      assert i < |m.handed| ==> t.handed[i] == m.handed[i];
    }
  }

  predicate StrandsAt(turns: seq<Turn>, i: nat)
    requires i < |turns|
  {
    StrandsOperation(Run(INITIAL, turns[..i]), turns[i])
  }

  lemma PrefixStrands(turns: seq<Turn>, n: nat)
    requires n < |turns|
    ensures forall i | 0 <= i < n :: StrandsAt(turns, i) <==> StrandsAt(turns[..n], i)
  {
    forall i | 0 <= i < n
      ensures StrandsAt(turns, i) <==> StrandsAt(turns[..n], i)
    {
      assert turns[..n][..i] == turns[..i];
    }
  }

  /** Over a whole run: the promise is broken if and only if some task strands an operation. */
  lemma {:induction false} RunHandsDownUnconnectedIff(turns: seq<Turn>)
    requires ProperRun(turns)
    ensures HandsDownUnconnected(INITIAL, Run(INITIAL, turns)) <==>
            exists i | 0 <= i < |turns| :: StrandsAt(turns, i)
    decreases |turns|
  {
    if turns != [] {
      var n := |turns| - 1;
      var before := turns[..n];
      RunHandsDownUnconnectedIff(before);
      RunNeverCancels(before);
      StepHandsDownUnconnectedIff(Run(INITIAL, before), turns[n]);
      HandsDownSplits(INITIAL, Run(INITIAL, before), Run(INITIAL, turns));
      PrefixStrands(turns, n);
      assert StrandsAt(turns, n) == StrandsOperation(Run(INITIAL, before), turns[n]);
    }
  }

  predicate NoDisconnect(s: State) {
    (forall op <- s.queue :: !op.kind.Disconnect?) && (s.pending.Some? ==> !s.pending.value.kind.Disconnect?)
  }

  lemma {:induction false} AdmitAllNoDisconnect(env: Outcomes, s: State, ops: seq<Op>)
    requires NoDisconnect(s) && forall op <- ops :: !op.kind.Disconnect?
    ensures NoDisconnect(AdmitAll(env, s, ops))
    decreases |ops|
  {
    if ops != [] {
      AdmitAllNoDisconnect(env, Admit(env, s, ops[0]), ops[1..]);
    }
  }

  lemma StepNoDisconnect(s: State, turn: Turn)
    requires Settled(s) && NoDisconnect(s)
    requires turn.task.Submit? ==> !turn.task.op.kind.Disconnect?
    ensures NoDisconnect(FlatStep(s, turn))
  {
    if turn.task.Connected? && s.pending.Some? {
      AdmitAllNoDisconnect(turn.env, s.(connected := true, blocked := false, pending := None, queue := []), s.queue);
    }
  }

  lemma {:induction false} RunNoDisconnect(turns: seq<Turn>)
    requires ProperRun(turns)
    requires forall turn <- turns :: turn.task.Submit? ==> !turn.task.op.kind.Disconnect?
    ensures NoDisconnect(Run(INITIAL, turns))
    decreases |turns|
  {
    if turns != [] {
      var n := |turns| - 1;
      var s := Run(INITIAL, turns[..n]);
      RunNoDisconnect(turns[..n]);
      RunNeverCancels(turns[..n]);
      FlatStepIsStep(s, turns[n]);
      StepNoDisconnect(s, turns[n]);
    }
  }

  /** In a run without disconnect operations no traffic is logged as handed down unconnected. */
  lemma FlagSetWithoutDisconnects(turns: seq<Turn>)
    requires ProperRun(turns)
    requires forall turn <- turns :: turn.task.Submit? ==> !turn.task.op.kind.Disconnect?
    ensures forall entry <- Run(INITIAL, turns).handed :: IsTraffic(entry.kind) ==> entry.connected
  {
    forall i | 0 <= i < |turns|
      ensures !StrandsAt(turns, i)
    {
      RunNoDisconnect(turns[..i]);
    }
    RunHandsDownUnconnectedIff(turns);
    var t := Run(INITIAL, turns);
    forall i | 0 <= i < |t.handed|
      ensures IsTraffic(t.handed[i].kind) ==> t.handed[i].connected
    {
      assert |INITIAL.handed| <= i;
    }
  }

  // ----- release order -----

  function ConnectOpsFor(ops: seq<Op>): seq<Op> {
    seq(|ops|, i requires 0 <= i < |ops| => ConnectOpFor(ops[i]))
  }

  /** The entries the transport sees when `ops` go down in order over an open connection. */
  function Entries(ops: seq<Op>): seq<Handed> {
    seq(|ops|, i requires 0 <= i < |ops| => Handed(ops[i].id, ops[i].kind, true))
  }

  lemma ConnectReleasesParked(env: Outcomes, s: State, op: Op)
    requires Settled(s) && !s.blocked && s.connected && Plain(op) && NeedsConnection(op.kind)
    ensures var t := Admit(env, s, ConnectOpFor(op));
            t.handed == s.handed + [Handed(op.id, op.kind, true)] && Settled(t) && !t.blocked && t.connected
  {
    AdmitSettles(env, s, ConnectOpFor(op));
  }

  lemma EntriesCons(op: Op, ops: seq<Op>)
    ensures Entries([op] + ops) == [Handed(op.id, op.kind, true)] + Entries(ops)
    ensures ConnectOpsFor([op] + ops) == [ConnectOpFor(op)] + ConnectOpsFor(ops)
  {
  }

  lemma AdmitAllFirst(env: Outcomes, s: State, op: Op, ops: seq<Op>)
    ensures AdmitAll(env, s, [op] + ops) == AdmitAll(env, Admit(env, s, op), ops)
  {
    assert ([op] + ops)[1..] == ops;
  }

  lemma {:induction false} ConnectsReleaseInOrder(env: Outcomes, s: State, ops: seq<Op>)
    requires Settled(s) && !s.blocked && s.connected
    requires forall op <- ops :: Plain(op) && NeedsConnection(op.kind)
    ensures var t := AdmitAll(env, s, ConnectOpsFor(ops));
            t.handed == s.handed + Entries(ops) && !t.blocked && t.connected
    decreases |ops|
  {
    if ops == [] {
      assert Entries(ops) == [];
    } else {
      var first, rest := ops[0], ops[1..];
      assert ops == [first] + rest;
      EntriesCons(first, rest);
      ConnectReleasesParked(env, s, first);
      ConnectsReleaseInOrder(env, Admit(env, s, ConnectOpFor(first)), rest);
      AdmitAllFirst(env, s, ConnectOpFor(first), ConnectOpsFor(rest));
      var entry := Handed(first.id, first.kind, true);
      assert s.handed + [entry] + Entries(rest) == s.handed + ([entry] + Entries(rest));
    }
  }

  /** All of `ops` wait for one connect: the first behind it, the others queued behind their own. */
  predicate AllWait(s: State, ops: seq<Op>)
    requires ops != []
  {
    s.blocked && !s.connected &&
    s.pending == Some(ConnectOpFor(ops[0]).(callback := Unblocking(AfterConnect(ops[0])))) &&
    s.queue == ConnectOpsFor(ops[1..])
  }

  lemma FirstStartsConnect(s: State, op: Op, env: Outcomes)
    requires Settled(s) && !s.blocked && !s.connected && Plain(op) && NeedsConnection(op.kind)
    requires !Refuses(env, ConnectOpFor(op))
    ensures var t := Step(s, Turn(Submit(op), env));
            Settled(t) && AllWait(t, [op]) && t.handed == s.handed + [Handed(ConnectFor(op.id), Connect, false)]
  {
    FlatStepIsStep(s, Turn(Submit(op), env));
    assert [op][1..] == [] && ConnectOpsFor([]) == [];
  }

  lemma NextQueuesUp(s: State, ops: seq<Op>, op: Op, env: Outcomes)
    requires Settled(s) && ops != [] && AllWait(s, ops) && Plain(op) && NeedsConnection(op.kind)
    ensures var t := Step(s, Turn(Submit(op), env));
            Settled(t) && AllWait(t, ops + [op]) && t.handed == s.handed
  {
    FlatStepIsStep(s, Turn(Submit(op), env));
    assert (ops + [op])[1..] == ops[1..] + [op];
    assert ConnectOpsFor(ops[1..] + [op]) == ConnectOpsFor(ops[1..]) + [ConnectOpFor(op)];
  }

  /** Drops and acknowledgements leave everybody waiting. */
  lemma EventsKeepWaiting(s: State, ops: seq<Op>, turn: Turn)
    requires Settled(s) && ops != [] && AllWait(s, ops) && (turn.task.Disconnected? || turn.task.Acked?)
    ensures var t := Step(s, turn);
            Settled(t) && AllWait(t, ops) && t.handed == s.handed
  {
    FlatStepIsStep(s, turn);
  }

  /** What may happen while the connect is under way: further submissions, drops and acknowledgements. */
  predicate KeepsWaiting(turn: Turn) {
    turn.task.Disconnected? || turn.task.Acked? ||
    (turn.task.Submit? && Plain(turn.task.op) && NeedsConnection(turn.task.op.kind))
  }

  predicate AllKeepWaiting(turns: seq<Turn>) {
    forall i | 0 <= i < |turns| :: KeepsWaiting(turns[i])
  }

  function SubmittedOps(turns: seq<Turn>): seq<Op> {
    if turns == [] then []
    else
      var last := turns[|turns| - 1];
      SubmittedOps(turns[..|turns| - 1]) + if last.task.Submit? then [last.task.op] else []
  }

  lemma {:induction false} SubmittedOpsAreSubmitted(turns: seq<Turn>)
    requires AllKeepWaiting(turns)
    ensures forall op <- SubmittedOps(turns) :: Plain(op) && NeedsConnection(op.kind)
    decreases |turns|
  {
    if turns != [] {
      SubmittedOpsAreSubmitted(turns[..|turns| - 1]);
    }
  }

  /** The operation `op` starts a connect; it and all that `turns` submit wait for that connect. */
  lemma {:induction false} SubmittedQueueUp(s: State, op: Op, env: Outcomes, turns: seq<Turn>)
    requires Settled(s) && !s.blocked && !s.connected && Plain(op) && NeedsConnection(op.kind)
    requires !Refuses(env, ConnectOpFor(op)) && AllKeepWaiting(turns)
    ensures var t := Run(Step(s, Turn(Submit(op), env)), turns);
            Settled(t) && AllWait(t, [op] + SubmittedOps(turns)) &&
            t.handed == s.handed + [Handed(ConnectFor(op.id), Connect, false)]
    decreases |turns|
  {
    if turns == [] {
      FirstStartsConnect(s, op, env);
      assert [op] + SubmittedOps(turns) == [op];
    } else {
      var n := |turns| - 1;
      SubmittedQueueUp(s, op, env, turns[..n]);
      var t, ops := Run(Step(s, Turn(Submit(op), env)), turns[..n]), [op] + SubmittedOps(turns[..n]);
      if turns[n].task.Submit? {
        NextQueuesUp(t, ops, turns[n].task.op, turns[n].env);
        assert ops + [turns[n].task.op] == [op] + SubmittedOps(turns);
      } else {
        EventsKeepWaiting(t, ops, turns[n]);
        assert SubmittedOps(turns) == SubmittedOps(turns[..n]);
      }
    }
  }

  lemma SucceedReleasesAll(env: Outcomes, s: State, op: Op, ops: seq<Op>)
    requires ops != [] && Shaped(s) && s.connected && s.queue == ConnectOpsFor(ops[1..])
    requires op.callback == Unblocking(AfterConnect(ops[0]))
    requires forall op <- ops :: Plain(op) && NeedsConnection(op.kind)
    ensures Succeed(env, s, op).handed == s.handed + Entries(ops[1..] + [ops[0]])
  {
    var s0 := s.(blocked := false, pending := None, queue := []);
    ConnectsReleaseInOrder(env, s0, ops[1..]);
    assert Entries(ops[1..] + [ops[0]]) == Entries(ops[1..]) + [Handed(ops[0].id, ops[0].kind, true)];
  }

  lemma {:induction false} RunFirst(s: State, first: Turn, turns: seq<Turn>)
    ensures Run(s, [first] + turns) == Run(Step(s, first), turns)
    decreases |turns|
  {
    var all := [first] + turns;
    if turns == [] {
      assert all[..0] == [];
    } else {
      var n := |turns| - 1;
      assert all[..|all| - 1] == [first] + turns[..n];
      RunFirst(s, first, turns[..n]);
    }
  }

  /** `op` is submitted, then `turns` happen, then the connection comes up. */
  function ConnectRun(op: Op, env: Outcomes, turns: seq<Turn>, connectedEnv: Outcomes): seq<Turn> {
    [Turn(Submit(op), env)] + (turns + [Turn(Connected, connectedEnv)])
  }

  /**
   k operations submitted while disconnected start one connect; when it succeeds each of them goes down
   exactly once, in the order 2, 3, ..., k, 1, whatever drops and acknowledgements come in between.
   */
  lemma FirstComesLast(s: State, op: Op, env: Outcomes, turns: seq<Turn>, connectedEnv: Outcomes)
    requires Settled(s) && !s.blocked && !s.connected && Plain(op) && NeedsConnection(op.kind)
    requires !Refuses(env, ConnectOpFor(op)) && AllKeepWaiting(turns)
    ensures Run(s, ConnectRun(op, env, turns, connectedEnv)).handed ==
            s.handed + [Handed(ConnectFor(op.id), Connect, false)] + Entries(SubmittedOps(turns) + [op])
  {
    var connected, ops := Turn(Connected, connectedEnv), [op] + SubmittedOps(turns);
    RunFirst(s, Turn(Submit(op), env), turns + [connected]);
    assert (turns + [connected])[..|turns|] == turns;
    SubmittedQueueUp(s, op, env, turns);
    SubmittedOpsAreSubmitted(turns);
    var t := Run(Step(s, Turn(Submit(op), env)), turns);
    FlatStepIsStep(t, connected);
    SucceedReleasesAll(connectedEnv, t.(connected := true), t.pending.value, ops);
    assert ops[1..] == SubmittedOps(turns) && ops[0] == op;
  }

  /** They go down in the order in which they were submitted if and only if there is only one of them. */
  lemma ArrivalOrderKeptIff(s: State, op: Op, env: Outcomes, turns: seq<Turn>, connectedEnv: Outcomes)
    requires Settled(s) && !s.blocked && !s.connected && Plain(op) && NeedsConnection(op.kind)
    requires !Refuses(env, ConnectOpFor(op)) && AllKeepWaiting(turns)
    requires forall other <- SubmittedOps(turns) :: other.id != op.id
    ensures Run(s, ConnectRun(op, env, turns, connectedEnv)).handed ==
            s.handed + [Handed(ConnectFor(op.id), Connect, false)] + Entries([op] + SubmittedOps(turns))
            <==> SubmittedOps(turns) == []
  {
    FirstComesLast(s, op, env, turns, connectedEnv);
    var start := s.handed + [Handed(ConnectFor(op.id), Connect, false)];
    var rest := SubmittedOps(turns);
    if rest == [] {
      assert rest + [op] == [op] + rest;
    } else {
      assert (start + Entries(rest + [op]))[|start|] == Handed(rest[0].id, rest[0].kind, true);
      assert (start + Entries([op] + rest))[|start|] == Handed(op.id, op.kind, true);
      assert rest[0] in rest;
    }
  }

  lemma DisconnectPends(s: State, op: Op, env: Outcomes)
    requires Settled(s) && !s.blocked && s.connected && Plain(op) && op.kind.Disconnect? && !Refuses(env, op)
    ensures var t := Step(s, Turn(Submit(op), env));
            Settled(t) && t.connected && t.pending == Some(op.(callback := Unblocking(Upper))) && t.queue == []
  {
    FlatStepIsStep(s, Turn(Submit(op), env));
  }

  lemma SubmittedBehindPending(s: State, op: Op, env: Outcomes)
    requires Settled(s) && s.blocked && s.connected && s.queue == [] && Plain(op) && NeedsConnection(op.kind)
    ensures var t := Step(s, Turn(Submit(op), env));
            Settled(t) && t.pending == s.pending && t.queue == [op]
  {
    FlatStepIsStep(s, Turn(Submit(op), env));
    assert s.queue + [op] == [op];
  }

  /**
   The hypothesis of HandedOnlyWhileConnected is needed: whatever is submitted while a disconnect is on
   its way, and so while there still is a connection, is handed down after the connection has gone.
   */
  lemma DisconnectStrandsPublish(s: State, disconnect: Op, publish: Op, env: Outcomes)
    requires Settled(s) && !s.blocked && s.connected
    requires Plain(disconnect) && disconnect.kind.Disconnect? && !Refuses(env, disconnect)
    requires Plain(publish) && NeedsConnection(publish.kind)
    ensures var t := Step(Step(s, Turn(Submit(disconnect), env)), Turn(Submit(publish), env));
            HandsDownUnconnected(t, Step(t, Turn(Disconnected(None), env)))
  {
    var s1 := Step(s, Turn(Submit(disconnect), env));
    DisconnectPends(s, disconnect, env);
    SubmittedBehindPending(s1, publish, env);
    var t := Step(s1, Turn(Submit(publish), env));
    assert Stranded(env, t.queue);
    StepHandsDownUnconnectedIff(t, Turn(Disconnected(None), env));
  }

  /** Such a state is reached by connecting, from the very start. */
  lemma ConnectOpens(id: OpId)
    ensures var t := Step(Step(INITIAL, Turn(Submit(Op(id, Connect, Upper, None)), map[])), Turn(Connected, map[]));
            Settled(t) && !t.blocked && t.connected
  {
    var op := Op(id, Connect, Upper, None);
    var s := Step(INITIAL, Turn(Submit(op), map[]));
    FlatStepIsStep(INITIAL, Turn(Submit(op), map[]));
    assert s.pending == Some(op.(callback := Unblocking(Upper))) && s.queue == [];
    FlatStepIsStep(s, Turn(Connected, map[]));
  }

  // ----- what a failed connection operation does -----

  /** The error with which this task fails the pending operation, if it does. */
  function FailureOf(s: State, task: Task): Option<Error> {
    if s.pending.None? then None
    else if task.ConnectionFailed? && OpensConnection(s.pending.value.kind) then Some(task.cause)
    else if task.Disconnected? && s.pending.value.kind.Disconnect? then DropError(task.drop)
    else None
  }

  /**
   When the blocking operation fails, exactly the queued operations and those waiting behind queued
   connects complete, in queue order and with the same error, then the blocking one; nothing is
   handed down and the stage ends open and empty.
   */
  lemma FailureCascades(s: State, turn: Turn)
    requires Settled(s) && Proper(turn) && FailureOf(s, turn.task).Some?
    ensures var t, error := Step(s, turn), FailureOf(s, turn.task).value;
            t.completed == s.completed + Failures(s.queue, error) + [Failure(s.pending.value, error)] &&
            t.handed == s.handed && t.awaitingAck == s.awaitingAck &&
            !t.blocked && t.pending.None? && t.queue == []
  {
    FlatStepIsStep(s, turn);
  }

  // ----- arrival order -----

  /** No operation waits behind a connect that EnsureConnectionStage made up. */
  predicate NoneParked(s: State) {
    (forall op <- s.queue :: op.callback.Upper?) &&
    (s.pending.Some? ==> s.pending.value.callback == Unblocking(Upper))
  }

  lemma AdmitInOrder(env: Outcomes, s: State, op: Op)
    requires Settled(s) && NoneParked(s) && Plain(op)
    ensures var t := Admit(env, s, op);
            NoneParked(t) && t.left + Ids(t.queue) == s.left + Ids(s.queue) + [op.id]
  {
    var t := Admit(env, s, op);
    if s.blocked {
      assert Ids(t.queue) == Ids(s.queue) + [op.id];
    } else {
      assert Ids(s.queue) == [] && Ids(t.queue) == [];
    }
  }

  lemma {:induction false} AdmitAllInOrder(env: Outcomes, s: State, ops: seq<Op>)
    requires Settled(s) && NoneParked(s) && forall op <- ops :: Plain(op)
    ensures var t := AdmitAll(env, s, ops);
            NoneParked(t) && t.left + Ids(t.queue) == s.left + Ids(s.queue) + Ids(ops)
    decreases |ops|
  {
    if ops == [] {
      assert Ids(ops) == [];
    } else {
      AdmitInOrder(env, s, ops[0]);
      AdmitSettles(env, s, ops[0]);
      AdmitAllInOrder(env, Admit(env, s, ops[0]), ops[1..]);
      assert Ids(ops) == [ops[0].id] + Ids(ops[1..]);
    }
  }

  /** EnsureConnectionStage passes every operation of the run straight through. */
  predicate NeverParks(s: State, turns: seq<Turn>) {
    forall i :: 0 <= i < |turns| && turns[i].task.Submit? && NeedsConnection(turns[i].task.op.kind) ==>
      Run(s, turns[..i]).connected
  }

  lemma SucceedInOrder(env: Outcomes, s: State, op: Op)
    requires Shaped(s) && NoneParked(s) && Below(op) && s.pending == Some(op)
    ensures var t := Succeed(env, s, op);
            NoneParked(t) && t.left + Ids(t.queue) == s.left + Ids(s.queue)
  {
    var s0 := s.(blocked := false, pending := None, queue := []);
    AdmitAllInOrder(env, s0, s.queue);
    assert Ids(s0.queue) == [];
  }

  lemma FailInOrder(s: State, op: Op, error: Error)
    requires NoneParked(s) && s.pending == Some(op)
    ensures var t := Fail(s, op, error);
            NoneParked(t) && t.left + Ids(t.queue) == s.left + Ids(s.queue)
  {
    assert Ids(Fail(s, op, error).queue) == [];
  }

  lemma StepInOrder(s: State, turn: Turn)
    requires Settled(s) && NoneParked(s) && Proper(turn)
    requires turn.task.Submit? && NeedsConnection(turn.task.op.kind) ==> s.connected
    ensures var t := FlatStep(s, turn);
            NoneParked(t) && t.left + Ids(t.queue) == s.left + Ids(s.queue) + SubmittedIn(turn)
  {
    match turn.task
    case Submit(op) =>
      AdmitInOrder(turn.env, s, op);
    case Connected =>
      if s.pending.Some? { SucceedInOrder(turn.env, s.(connected := true), s.pending.value); }
    case ConnectionFailed(cause) =>
      if s.pending.Some? { FailInOrder(s, s.pending.value, cause); }
    case Disconnected(drop) =>
      if s.pending.Some? {
        SucceedInOrder(turn.env, s.(connected := false), s.pending.value);
        if drop.Some? { FailInOrder(s.(connected := false), s.pending.value, ConnectionDropped(drop.value)); }
      }
    case Acked(index) =>
  }

  /**
   Operations leave the serialize stage in the order in which they arrived, over any run and through
   any number of re-blocks: what has left, followed by what is queued, is what was submitted.
   */
  lemma {:induction false} ArrivalOrder(turns: seq<Turn>)
    requires ProperRun(turns) && NeverParks(INITIAL, turns)
    ensures var s := Run(INITIAL, turns);
            NoneParked(s) && Submitted(turns) == s.left + Ids(s.queue)
    decreases |turns|
  {
    if turns == [] {
      assert Ids(INITIAL.queue) == [];
    } else {
      var n := |turns| - 1;
      var before := turns[..n];
      assert NeverParks(INITIAL, before) by {
        assert forall i | 0 <= i < n :: turns[..i] == before[..i] && turns[i] == before[i];
      }
      ArrivalOrder(before);
      RunNeverCancels(before);
      FlatStepIsStep(Run(INITIAL, before), turns[n]);
      StepInOrder(Run(INITIAL, before), turns[n]);
    }
  }
}
