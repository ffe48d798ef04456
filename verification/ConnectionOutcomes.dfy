/**
 What a run of the connection pipeline means to those who submit operations, told from the tasks alone:
 when there is a link, what may go down, which completion each operation may get, and when it gets it.
 */
module ConnectionOutcomes {
  import opened Options
  import opened ConnectionModel
  import opened ConnectionFlat
  import opened ConnectionTheorems

  // ----- the link -----

  /** The last report of the MQTT library was that it is connected; at the start there is no link. */
  predicate LinkUp(turns: seq<Turn>) {
    turns != [] &&
    var last := turns[|turns| - 1].task;
    last.Connected? || (!last.Disconnected? && LinkUp(turns[..|turns| - 1]))
  }

  lemma StepLink(s: State, turn: Turn)
    requires Settled(s) && Proper(turn)
    ensures Step(s, turn).connected == (turn.task.Connected? || (!turn.task.Disconnected? && s.connected))
  {
    FlatStepIsStep(s, turn);
    match turn.task
    case Submit(op) =>
      EnsureIsAdmit(turn.env, s, op);
      AdmitSettles(turn.env, s, Arrival(s, op));
    case Connected =>
      if s.pending.Some? { SucceedIsComplete(turn.env, s.(connected := true), s.pending.value); }
    case ConnectionFailed(_) =>
    case Disconnected(_) =>
      if s.pending.Some? { SucceedIsComplete(turn.env, s.(connected := false), s.pending.value); }
    case Acked(_) =>
  }

  /** In every run the pipeline takes itself for connected if and only if there is a link. */
  lemma {:induction false} ConnectedIffLinkUp(turns: seq<Turn>)
    requires ProperRun(turns)
    ensures Run(INITIAL, turns).connected <==> LinkUp(turns)
    decreases |turns|
  {
    if turns != [] {
      var n := |turns| - 1;
      ConnectedIffLinkUp(turns[..n]);
      RunNeverCancels(turns[..n]);
      StepLink(Run(INITIAL, turns[..n]), turns[n]);
    }
  }

  // ----- what may go down, and how an operation may complete -----

  /** An entry tells the truth about the link; a connect goes down only without one, a disconnect only over one. */
  predicate EntryFits(entry: Handed, up: bool) {
    entry.connected == up && (entry.kind.Connect? ==> !up) && (entry.kind.Disconnect? ==> up)
  }

  predicate RefusedWith(env: Outcomes, id: OpId, error: Error) {
    id in env && env[id] == Refused(error)
  }

  predicate IsAcked(turn: Turn, awaiting: seq<Op>, id: OpId) {
    (id in turn.env && turn.env[id].AckedEarly?) ||
    (turn.task.Acked? && turn.task.index < |awaiting| && awaiting[turn.task.index].id == id)
  }

  /**
   The completions a task may bring, given the link and the operations that awaited an acknowledgement.  A
   success has its reason in the task: a link for a connect, the report of a new one for a reconnect, the
   absence of one for a disconnect, an acknowledgement for traffic.  A failure carries the error of the
   report or of the refusal, its own or that of the connect made for it.
   */
  predicate CompletionFits(turn: Turn, up: bool, awaiting: seq<Op>, c: Completion) {
    match c.error
    case None =>
      (match c.kind
       case Connect => up
       case Reconnect => turn.task.Connected?
       case Disconnect => !up
       case Publish => IsAcked(turn, awaiting, c.id)
       case Subscribe => IsAcked(turn, awaiting, c.id)
       case Unsubscribe => IsAcked(turn, awaiting, c.id)
       case Unknown => false)
    case Some(error) =>
      turn.task == ConnectionFailed(error) ||
      (turn.task.Disconnected? && turn.task.drop.Some? && error == ConnectionDropped(turn.task.drop.value)) ||
      RefusedWith(turn.env, c.id, error) || RefusedWith(turn.env, ConnectFor(c.id), error) ||
      (c.kind.Unknown? && error == NotHandled)
  }

  /** The logs grow, and whatever is new in them fits. */
  predicate NewsFits(turn: Turn, up: bool, awaiting: seq<Op>, s: State, t: State) {
    s.handed <= t.handed && s.completed <= t.completed &&
    (forall i | |s.handed| <= i < |t.handed| :: EntryFits(t.handed[i], up)) &&
    (forall i | |s.completed| <= i < |t.completed| :: CompletionFits(turn, up, awaiting, t.completed[i]))
  }

  lemma NewsChains(turn: Turn, up: bool, awaiting: seq<Op>, s: State, m: State, t: State)
    requires NewsFits(turn, up, awaiting, s, m) && NewsFits(turn, up, awaiting, m, t)
    ensures NewsFits(turn, up, awaiting, s, t)
  {
    forall i | |s.handed| <= i < |t.handed|
      ensures EntryFits(t.handed[i], up)
    {
      if i < |m.handed| { assert t.handed[i] == m.handed[i]; }
    }
    forall i | |s.completed| <= i < |t.completed|
      ensures CompletionFits(turn, up, awaiting, t.completed[i])
    {
      if i < |m.completed| { assert t.completed[i] == m.completed[i]; }
    }
  }

  lemma TransmitNews(turn: Turn, awaiting: seq<Op>, s: State, op: Op)
    requires NeedsConnection(op.kind)
    ensures NewsFits(turn, s.connected, awaiting, s, Transmit(turn.env, s, op))
  {
  }

  lemma OriginMadeUp(op: Op)
    requires Fresh(op) && op.callback.AfterConnect?
    ensures Origin(op) == NameOf(op.callback.parked) && op.id == ConnectFor(Origin(op).id)
  {
    assert Plain(op.callback.parked);
    assert Origin(op) == Origin(op.callback.parked);
  }

  lemma AdmitNews(turn: Turn, awaiting: seq<Op>, s: State, op: Op)
    requires Settled(s) && Fresh(op)
    ensures NewsFits(turn, s.connected, awaiting, s, Admit(turn.env, s, op))
  {
    var s0 := Depart(s, op);
    if !s.blocked {
      if op.kind.Connect? && s.connected && op.callback.AfterConnect? {
        TransmitNews(turn, awaiting, Depart(s0, op.callback.parked), op.callback.parked);
      } else if NeedsConnection(op.kind) {
        TransmitNews(turn, awaiting, s0, op);
      } else if op.callback.AfterConnect? {
        OriginMadeUp(op);
      }
    }
  }

  lemma {:induction false} AdmitAllNews(turn: Turn, awaiting: seq<Op>, s: State, ops: seq<Op>)
    requires Settled(s) && forall op <- ops :: Fresh(op)
    ensures NewsFits(turn, s.connected, awaiting, s, AdmitAll(turn.env, s, ops))
    decreases |ops|
  {
    if ops != [] {
      var m := Admit(turn.env, s, ops[0]);
      AdmitNews(turn, awaiting, s, ops[0]);
      AdmitSettles(turn.env, s, ops[0]);
      AdmitAllNews(turn, awaiting, m, ops[1..]);
      NewsChains(turn, s.connected, awaiting, s, m, AdmitAll(turn.env, m, ops[1..]));
    }
  }

  lemma SucceedNews(turn: Turn, awaiting: seq<Op>, s: State, op: Op)
    requires Shaped(s) && Below(op)
    requires if op.kind.Disconnect? then !s.connected else s.connected && turn.task.Connected?
    ensures NewsFits(turn, s.connected, awaiting, s, Succeed(turn.env, s, op))
  {
    var s0 := s.(blocked := false, pending := None, queue := []);
    var s1 := AdmitAll(turn.env, s0, s.queue);
    AdmitAllNews(turn, awaiting, s0, s.queue);
    ReleaseIsAdmitAll(turn.env, s0, s.queue);
    if op.callback.saved.AfterConnect? {
      AdmitNews(turn, awaiting, s1, op.callback.saved.parked);
    }
    NewsChains(turn, s.connected, awaiting, s, s1, Succeed(turn.env, s, op));
  }

  lemma FailNews(turn: Turn, awaiting: seq<Op>, s: State, op: Op, error: Error)
    requires turn.task == ConnectionFailed(error) ||
             (turn.task.Disconnected? && turn.task.drop.Some? && error == ConnectionDropped(turn.task.drop.value))
    ensures NewsFits(turn, s.connected, awaiting, s, Fail(s, op, error))
  {
    var t := Fail(s, op, error);
    forall i | |s.completed| <= i < |t.completed|
      ensures t.completed[i].error == Some(error)
    {
    }
  }

  lemma StepNews(s: State, turn: Turn)
    requires Settled(s) && Proper(turn)
    ensures NewsFits(turn, Step(s, turn).connected, s.awaitingAck, s, Step(s, turn))
  {
    FlatStepIsStep(s, turn);
    StepLink(s, turn);
    match turn.task
    case Submit(op) =>
      EnsureIsAdmit(turn.env, s, op);
      AdmitNews(turn, s.awaitingAck, s, Arrival(s, op));
    case Connected =>
      if s.pending.Some? && OpensConnection(s.pending.value.kind) {
        SucceedNews(turn, s.awaitingAck, s.(connected := true), s.pending.value);
      }
    case ConnectionFailed(cause) =>
      if s.pending.Some? { FailNews(turn, s.awaitingAck, s, s.pending.value, cause); }
    case Disconnected(drop) =>
      if s.pending.Some? && s.pending.value.kind.Disconnect? {
        var s0 := s.(connected := false);
        if drop.Some? {
          FailNews(turn, s.awaitingAck, s0, s.pending.value, ConnectionDropped(drop.value));
        } else {
          SucceedNews(turn, s.awaitingAck, s0, s.pending.value);
        }
      }
    case Acked(index) =>
  }

  /** In every run, everything a task hands down and every completion it brings fits the task and the link. */
  lemma NewsOfEveryTaskFits(turns: seq<Turn>, n: nat)
    requires ProperRun(turns) && n < |turns|
    ensures var s, t := Run(INITIAL, turns[..n]), Run(INITIAL, turns[..n + 1]);
            NewsFits(turns[n], LinkUp(turns[..n + 1]), s.awaitingAck, s, t)
  {
    assert turns[..n + 1][..n] == turns[..n] && turns[..n + 1][n] == turns[n];
    RunNeverCancels(turns[..n]);
    StepNews(Run(INITIAL, turns[..n]), turns[n]);
    ConnectedIffLinkUp(turns[..n + 1]);
  }

  /**
   In a run without disconnect operations, whatever drops, failures and reconnects occur, every publish,
   subscribe and unsubscribe is handed to the transport by a task after which there is a link.
   */
  lemma HandedOnlyWhileConnected(turns: seq<Turn>, n: nat)
    requires ProperRun(turns) && n < |turns|
    requires forall turn <- turns :: turn.task.Submit? ==> !turn.task.op.kind.Disconnect?
    ensures var s, t := Run(INITIAL, turns[..n]), Run(INITIAL, turns[..n + 1]);
            forall i | |s.handed| <= i < |t.handed| :: IsTraffic(t.handed[i].kind) ==> LinkUp(turns[..n + 1])
  {
    NewsOfEveryTaskFits(turns, n);
    FlagSetWithoutDisconnects(turns[..n + 1]);
    var t := Run(INITIAL, turns[..n + 1]);
    assert forall i | 0 <= i < |t.handed| :: t.handed[i] in t.handed;
  }

  // ----- when an operation gets its completion -----

  /** The report of the library that ends a pending operation of this kind, and how: no error is success. */
  function Answer(kind: Kind, task: Task): Option<Option<Error>> {
    match task
    case Connected => if kind.Connect? || kind.Reconnect? then Some(None) else None
    case ConnectionFailed(cause) => if kind.Connect? || kind.Reconnect? then Some(Some(cause)) else None
    case Disconnected(drop) =>
      if kind.Disconnect? then Some(if drop.Some? then Some(ConnectionDropped(drop.value)) else None) else None
    case _ => None
  }

  /** Until its answer comes, a pending operation stays, and what is queued behind it stays queued. */
  lemma PendingUntilAnswered(s: State, turn: Turn)
    requires Settled(s) && Proper(turn) && s.pending.Some? && Answer(s.pending.value.kind, turn.task).None?
    ensures var t := Step(s, turn);
            t.pending == s.pending && t.handed == s.handed && s.queue <= t.queue &&
            (!turn.task.Acked? ==> t.completed == s.completed && t.awaitingAck == s.awaitingAck) &&
            (turn.task.Submit? ==> t.queue == s.queue + [Arrival(s, turn.task.op)]) &&
            (!turn.task.Submit? ==> t.queue == s.queue)
  {
    FlatStepIsStep(s, turn);
  }

  /**
   The answer ends the pending operation in the same task: the last thing that happens is that its own
   caller hears the outcome, or that the operation behind a made-up connect fails with it, goes down, or
   queues up again.
   */
  lemma AnswerEndsPending(s: State, turn: Turn)
    requires Settled(s) && Proper(turn) && s.pending.Some? && Answer(s.pending.value.kind, turn.task).Some?
    ensures var t, op, error := Step(s, turn), s.pending.value, Answer(s.pending.value.kind, turn.task).value;
            match op.callback.saved
            case Upper =>
              |t.completed| > |s.completed| &&
              t.completed[|t.completed| - 1] == Completion(op.id, op.kind, error)
            case AfterConnect(parked) =>
              if error.Some? then
                |t.completed| > |s.completed| &&
                t.completed[|t.completed| - 1] == Completion(parked.id, parked.kind, error)
              else if t.blocked then
                t.queue != [] && t.queue[|t.queue| - 1] == parked
              else
                |t.handed| > |s.handed| && t.handed[|t.handed| - 1] == Handed(parked.id, parked.kind, true)
            case Unblocking(_) => false
  {
    FlatStepIsStep(s, turn);
    var op, error := s.pending.value, Answer(s.pending.value.kind, turn.task).value;
    OriginBelow(op);
    if error.None? {
      SucceedEndsLast(turn.env, s.(connected := turn.task.Connected?), op);
    }
  }

  lemma ParkedGoesOn(env: Outcomes, s: State, op: Op)
    requires Settled(s) && s.connected && Plain(op) && NeedsConnection(op.kind)
    ensures var t := Admit(env, s, op);
            s.completed <= t.completed && s.handed <= t.handed && t.blocked == s.blocked &&
            if t.blocked then t.queue == s.queue + [op]
            else t.handed == s.handed + [Handed(op.id, op.kind, true)]
  {
  }

  lemma SucceedEndsLast(env: Outcomes, s: State, op: Op)
    requires Shaped(s) && Below(op) && (op.kind.Connect? ==> s.connected)
    ensures var t := Succeed(env, s, op);
            s.completed <= t.completed && s.handed <= t.handed &&
            match op.callback.saved
            case Upper =>
              |t.completed| > |s.completed| && t.completed[|t.completed| - 1] == Completion(op.id, op.kind, None)
            case AfterConnect(parked) =>
              if t.blocked then t.queue != [] && t.queue[|t.queue| - 1] == parked
              else |t.handed| > |s.handed| && t.handed[|t.handed| - 1] == Handed(parked.id, parked.kind, true)
            case Unblocking(_) => false
  {
    var s0 := s.(blocked := false, pending := None, queue := []);
    ReleaseIsAdmitAll(env, s0, s.queue);
    var turn := Turn(Connected, env);
    AdmitAllNews(turn, [], s0, s.queue);
    if op.callback.saved.AfterConnect? {
      ParkedGoesOn(env, AdmitAll(env, s0, s.queue), op.callback.saved.parked);
    }
  }

  /** Any acknowledgement completes the operation it belongs to, successfully and at once, and nothing else. */
  lemma AckCompletes(s: State, env: Outcomes, index: nat)
    requires Settled(s) && index < |s.awaitingAck|
    ensures var op := s.awaitingAck[index];
            Step(s, Turn(Acked(index), env)) ==
            s.(awaitingAck := s.awaitingAck[..index] + s.awaitingAck[index + 1..],
               completed := s.completed + [Completion(op.id, op.kind, None)])
  {
    FlatStepIsStep(s, Turn(Acked(index), env));
  }

  /** Traffic over a link goes down at once; it waits for its acknowledgement unless the library answers at once. */
  lemma TrafficGoesDown(s: State, op: Op, env: Outcomes)
    requires Settled(s) && !s.blocked && s.connected && Plain(op) && IsTraffic(op.kind)
    ensures var t := Step(s, Turn(Submit(op), env));
            t.handed == s.handed + [Handed(op.id, op.kind, true)] &&
            if op.id !in env then t.awaitingAck == s.awaitingAck + [op] && t.completed == s.completed
            else
              t.awaitingAck == s.awaitingAck &&
              t.completed == s.completed + [Completion(
                op.id, op.kind, if env[op.id].Refused? then Some(env[op.id].error) else None)]
  {
    FlatStepIsStep(s, Turn(Submit(op), env));
  }

  /**
   Submitted to an open stage, a connect over a link and a disconnect without one succeed at once and go no
   further; any other connection operation goes down and is pending, or fails at once with the refusal; an
   operation the transport does not know fails at once.
   */
  lemma OpenStageAnswers(s: State, op: Op, env: Outcomes)
    requires Settled(s) && !s.blocked && Plain(op) && !IsTraffic(op.kind)
    ensures var t, down := Step(s, Turn(Submit(op), env)), Handed(op.id, op.kind, s.connected);
            if (op.kind.Connect? && s.connected) || (op.kind.Disconnect? && !s.connected) then
              t.completed == s.completed + [Completion(op.id, op.kind, None)] && t.handed == s.handed && !t.blocked
            else if op.kind.Unknown? then
              t.completed == s.completed + [Completion(op.id, op.kind, Some(NotHandled))] && !t.blocked
            else
              t.handed == s.handed + [down] &&
              if op.id in env && env[op.id].Refused? then
                t.completed == s.completed + [Completion(op.id, op.kind, Some(env[op.id].error))] && !t.blocked
              else
                t.completed == s.completed && t.pending.Some? && NameOf(t.pending.value) == NameOf(op)
  {
    FlatStepIsStep(s, Turn(Submit(op), env));
  }

  /** A connection that is refused to a connect made for some traffic fails that traffic at once. */
  lemma RefusedConnectFailsTraffic(s: State, op: Op, env: Outcomes)
    requires Settled(s) && !s.blocked && !s.connected && Plain(op) && IsTraffic(op.kind)
    ensures var t := Step(s, Turn(Submit(op), env));
            t.handed == s.handed + [Handed(ConnectFor(op.id), Connect, false)] &&
            if ConnectFor(op.id) in env && env[ConnectFor(op.id)].Refused? then
              t.completed == s.completed + [Completion(op.id, op.kind, Some(env[ConnectFor(op.id)].error))]
            else
              t.completed == s.completed && t.pending.Some? && Origin(t.pending.value) == NameOf(op)
  {
    FlatStepIsStep(s, Turn(Submit(op), env));
    var connect := ConnectOpFor(op);
    OriginBelow(connect.(callback := Unblocking(connect.callback)));
    OriginMadeUp(connect);
  }

  /** Without a pending operation a report changes nothing but the link, and an unknown acknowledgement nothing at all. */
  lemma UnexpectedReports(s: State, turn: Turn)
    requires Settled(s) && s.pending.None? && !turn.task.Submit?
    requires turn.task.Acked? ==> turn.task.index >= |s.awaitingAck|
    ensures Step(s, turn) ==
            s.(connected := turn.task.Connected? || (!turn.task.Disconnected? && s.connected))
  {
    StepLink(s, turn);
  }
}
