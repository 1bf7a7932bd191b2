/** The heartbeat guarantees: what every course of a session in urgent time keeps. */
module HeartbeatLaws {
  import opened Types
  import opened Channels
  import opened Resetters
  import opened Timers
  import opened TimerLaws
  import opened Reactions
  import opened Responses
  import opened Heartbeats

  // ---------- either timer ----------

  ghost predicate PeriodKept(t: Timer, period: nat) {
    && t.core.period == period
    && (t.core.tasks != [] ==>
          && (Tail(t).Fresh? || Tail(t).Listening? || Tail(t).Parked?)
          && PeriodOf(Tail(t)) == period)
    && (forall command <- t.core.commands.sent :: command.Reset?)
  }

  /** A timer in use: the stream is polled, the resetter lives, the period stays as it was made. */
  ghost predicate InUse(t: Timer, period: nat) {
    && Inv(t) && t.senderAlive && !t.dropped && !t.ended
    && PeriodKept(t, period)
    && (t.initialising ==> t.fires == 0 && (Tail(t).Listening? ==> t.now < Tail(t).deadline))
  }

  predicate Waits(t: Timer) {
    t.core.commands.received < |t.core.commands.sent|
  }

  predicate Unyielded(t: Timer) {
    t.yielded < t.fires
  }

  lemma ResetInUse(t: Timer, period: nat)
    requires InUse(t, period)
    ensures t.core.commands.open && Timers.Enabled(t, Command(Reset)) && InUse(SendReset(t), period)
    ensures SendReset(t).core.commands.sent == t.core.commands.sent + [TimerCommand.Reset]
  {
    StepInv(t, Command(Reset));
    assert t.core.commands.open;
  }

  lemma PollInUse(t: Timer, period: nat)
    requires InUse(t, period) && Timers.Enabled(t, PollStep(t))
    ensures var t' := Timers.Apply(t, PollStep(t));
      && InUse(t', period)
      && t'.fires == t.fires && t'.restart == t.restart && t'.now == t.now && t'.core.commands == t.core.commands
      && t'.yielded == t.yielded + (if Unyielded(t) then 1 else 0)
      && (t'.core.tasks == t.core.tasks || (t.core.tasks == [] && t'.core.tasks == [Fresh(period)]))
  {
    StepInv(t, PollStep(t));
    if t.core.task.Some? {
      HandleAtTail(t);
    }
  }

  lemma TaskInUse(t: Timer, period: nat, step: Timers.Step)
    requires InUse(t, period) && IsTaskStep(step) && Timers.Enabled(t, step)
    requires step.Fire? ==> !t.initialising
    ensures InUse(Timers.Apply(t, step), period) && !step.Disconnect?
  {
    StepInv(t, step);
    if step.Receive? {
      assert t.core.commands.Queue()[0] == t.core.commands.sent[t.core.commands.received];
    }
  }

  lemma AdvanceInUse(t: Timer, period: nat, ms: nat)
    requires InUse(t, period) && CanPass(t, ms)
    ensures InUse(Timers.Apply(t, Advance(ms)), period)
    ensures t.core.tasks != [] && !Tail(t).Fresh? && !Waits(t) && !Unyielded(t) && !t.initialising
    ensures period > 0 ==> Tail(t).Listening? && t.now + ms <= t.restart + period
  {
    StepInv(t, Advance(ms));
    if t.core.task.Some? {
      HandleAtTail(t);
    }
    assert !HasNews(t);
  }

  /** Before the first poll is over there has been no time to fire. */
  lemma NoFireBeforePolled(t: Timer, period: nat)
    requires InUse(t, period) && Timers.Enabled(t, Step.Fire)
    ensures !t.initialising
  {
  }

  // ---------- the server's heartbeat ----------

  ghost predicate SignAt(log: seq<Stamped>, since: nat, at: nat) {
    at <= since || exists i :: 0 <= i < |log| && IsSign(log[i].output) && at <= log[i].at
  }

  ghost predicate Restarted(since: nat, t: Timer, log: seq<Stamped>) {
    && (Waits(t) ==> SignAt(log, since, t.now))
    && (t.core.tasks == [] || Tail(t).Fresh? ==> Unyielded(t) || SignAt(log, since, t.now))
    && (Unyielded(t) ==> t.restart == t.now && t.fires == t.yielded + 1)
    && (t.core.tasks != [] && Tail(t).Listening? ==> Unyielded(t) || SignAt(log, since, t.restart))
  }

  /** Every sign of life has restarted the timer, but for a message whose command still waits. */
  ghost predicate SignsRestart(t: Timer, log: seq<Stamped>, period: nat) {
    forall i :: 0 <= i < |log| && IsSign(log[i].output) ==>
      && (log[i].at <= t.restart || (log[i].at == t.now && IsMessage(log[i].output) && Waits(t)))
      && (Unyielded(t) ==> log[i].at + period <= t.now || (log[i].at == t.now && IsMessage(log[i].output)))
  }

  ghost predicate Past(log: seq<Stamped>, now: nat) {
    forall i :: 0 <= i < |log| ==> log[i].at <= now
  }

  ghost predicate ServerInv(since: nat, t: Timer, log: seq<Stamped>, period: nat) {
    && InUse(t, period) && since <= t.now && Past(log, t.now)
    && (period > 0 ==>
          && Restarted(since, t, log) && SignsRestart(t, log, period)
          && SignsCover(log, since, t.now, period) && EolsAreDue(log, period))
    && (period == 0 ==> t.fires == 0)
  }

  lemma ServerTaskInv(since: nat, t: Timer, log: seq<Stamped>, period: nat, step: Timers.Step)
    requires ServerInv(since, t, log, period) && IsTaskStep(step) && Timers.Enabled(t, step)
    ensures ServerInv(since, Timers.Apply(t, step), log, period)
  {
    if step.Fire? {
      NoFireBeforePolled(t, period);
    }
    TaskInUse(t, period, step);
  }

  lemma ServerPassInv(since: nat, t: Timer, log: seq<Stamped>, period: nat, ms: nat)
    requires ServerInv(since, t, log, period) && CanPass(t, ms)
    ensures ServerInv(since, Timers.Apply(t, Advance(ms)), log, period)
  {
    AdvanceInUse(t, period, ms);
    if period > 0 {
      var now' := t.now + ms;
      forall from: nat | since <= from && from + period < now' ensures SignIn(log, from, period) {
        if from + period >= t.now {
          assert SignAt(log, since, t.restart);
          var i :| 0 <= i < |log| && IsSign(log[i].output) && t.restart <= log[i].at;
          assert from < log[i].at <= from + period;
        }
      }
    }
  }

  lemma ServerPollInv(since: nat, t: Timer, log: seq<Stamped>, period: nat)
    requires ServerInv(since, t, log, period) && Timers.Enabled(t, PollStep(t))
    ensures var t' := Timers.Apply(t, PollStep(t));
      ServerInv(since, t', if t'.yielded > t.yielded then log + [Stamped(t.now, Eol)] else log, period)
  {
    PollInUse(t, period);
    if Unyielded(t) && period > 0 {
      LogGrows(since, t, log, period, Eol);
    }
  }

  /** Another output leaves what was covered covered. */
  lemma LogGrows(since: nat, t: Timer, log: seq<Stamped>, period: nat, output: Output)
    requires Past(log, t.now) && SignsCover(log, since, t.now, period) && EolsAreDue(log, period)
    requires SignsRestart(t, log, period) && (output.Eol? ==> Unyielded(t))
    ensures var log' := log + [Stamped(t.now, output)];
      && Past(log', t.now) && SignsCover(log', since, t.now, period) && EolsAreDue(log', period)
      && (IsSign(output) ==> forall at: nat | at <= t.now :: SignAt(log', since, at))
      && (forall at: nat :: SignAt(log, since, at) ==> SignAt(log', since, at))
  {
    var log' := log + [Stamped(t.now, output)];
    forall from: nat | since <= from && from + period < t.now ensures SignIn(log', from, period) {
      assert SignIn(log, from, period);
      var i :| 0 <= i < |log| && IsSign(log[i].output) && from < log[i].at <= from + period;
      assert log'[i] == log[i];
    }
    forall at: nat | SignAt(log, since, at) ensures SignAt(log', since, at) {
      if at > since {
        var i :| 0 <= i < |log| && IsSign(log[i].output) && at <= log[i].at;
        assert log'[i] == log[i];
      }
    }
    assert log'[|log|] == Stamped(t.now, output);
  }

  /** The session writes something other than an end-of-line; for a message it resets the timer. */
  lemma ServerWriteInv(since: nat, t: Timer, log: seq<Stamped>, period: nat, output: Output)
    requires ServerInv(since, t, log, period) && !output.Eol?
    ensures ServerInv(since, if IsMessage(output) then SendReset(t) else t, log + [Stamped(t.now, output)], period)
  {
    ResetInUse(t, period);
    if period > 0 {
      LogGrows(since, t, log, period, output);
    }
  }

  // ---------- the client's heartbeat ----------

  ghost predicate Listened(t: Timer, heard: seq<nat>) {
    && t.restart in heard
    && (forall u <- heard :: u <= t.restart || (u == t.now && Waits(t)))
    && (t.core.tasks == [] || Tail(t).Fresh? ==> t.restart == t.now)
  }

  ghost predicate ClientInv(t: Timer, heard: seq<nat>, missed: nat, grace: nat) {
    && (forall u <- heard :: u <= t.now)
    && (missed > 0 ==>
          && missed == 1 && t.dropped && grace > 0 && Silence(heard, t.now, grace)
          && Inv(t) && t.senderAlive && t.core.tasks != [] && Tail(t).Aborted?)
    && (missed == 0 ==>
          && InUse(t, grace) && t.yielded == 0
          && t.fires <= 1 && (t.fires == 1 && Tail(t).Listening? ==> t.now < Tail(t).deadline)
          && (Waits(t) ==> t.now in heard)
          && (t.fires == 0 ==> Listened(t, heard))
          && (t.fires > 0 ==> grace > 0 && Silence(heard, t.now, grace))
          && (grace > 0 ==> !LongSilence(heard, t.now, grace)))
  }

  lemma SilenceLasts(heard: seq<nat>, now: nat, grace: nat, heard': seq<nat>, now': nat)
    requires Silence(heard, now, grace) && now <= now'
    requires heard' == heard || heard' == heard + [now]
    ensures Silence(heard', now', grace)
  {
    var t :| t in heard && t + grace <= now && forall u <- heard :: u <= t || t + grace <= u;
    assert t in heard';
  }

  lemma ClientTaskInv(t: Timer, heard: seq<nat>, missed: nat, grace: nat, step: Timers.Step)
    requires ClientInv(t, heard, missed, grace) && IsTaskStep(step) && Timers.Enabled(t, step)
    ensures ClientInv(Timers.Apply(t, step), heard, missed, grace)
  {
    if missed == 0 {
      if step.Fire? {
        NoFireBeforePolled(t, grace);
        if t.fires == 0 {
          assert Silence(heard, t.now, grace) by {
            assert t.restart in heard && t.restart + grace <= t.now;
          }
        }
      }
      TaskInUse(t, grace, step);
    }
  }

  lemma ClientPassInv(t: Timer, heard: seq<nat>, missed: nat, grace: nat, ms: nat)
    requires ClientInv(t, heard, missed, grace) && CanPass(t, ms)
    ensures ClientInv(Timers.Apply(t, Advance(ms)), heard, missed, grace)
  {
    var now' := t.now + ms;
    if missed > 0 {
      SilenceLasts(heard, t.now, grace, heard, now');
    } else {
      AdvanceInUse(t, grace, ms);
    }
  }

  lemma HearingIsNoSilence(heard: seq<nat>, now: nat, grace: nat)
    ensures LongSilence(heard + [now], now, grace) ==> LongSilence(heard, now, grace)
    ensures Silence(heard, now, grace) ==> Silence(heard + [now], now, grace)
  {
    var heard' := heard + [now];
    if LongSilence(heard', now, grace) {
      var s :| s in heard' && s + grace < now && forall u <- heard' :: u <= s || s + grace < u;
      assert s in heard && forall u <- heard :: u in heard';
    }
    if Silence(heard, now, grace) {
      SilenceLasts(heard, now, grace, heard', now);
    }
  }

  lemma ListenedOn(t: Timer, t': Timer, heard: seq<nat>)
    requires Listened(t, heard) && Waits(t') && t' == t.(core := t'.core) && t'.core.tasks == t.core.tasks
    ensures Listened(t', heard + [t.now])
  {
  }

  lemma ClientHearInv(t: Timer, heard: seq<nat>, missed: nat, grace: nat)
    requires ClientInv(t, heard, missed, grace)
    ensures ClientInv(SendReset(t), heard + [t.now], missed, grace)
  {
    HearingIsNoSilence(heard, t.now, grace);
    if missed == 0 {
      ResetInUse(t, grace);
      if t.fires == 0 {
        ListenedOn(t, SendReset(t), heard);
      }
    }
  }

  function Missing(t: Timer, t': Timer): bool {
    (t'.yielded > t.yielded || t'.ended) && Timers.Enabled(t', DropTimer)
  }

  lemma ClientPollInv(t: Timer, heard: seq<nat>, missed: nat, grace: nat)
    requires ClientInv(t, heard, missed, grace) && Timers.Enabled(t, PollStep(t))
    ensures missed == 0
    ensures var t' := Timers.Apply(t, PollStep(t));
      if Missing(t, t')
      then ClientInv(Timers.Apply(t', DropTimer), heard, missed + 1, grace)
      else ClientInv(t', heard, missed, grace)
  {
    PollInUse(t, grace);
    var t' := Timers.Apply(t, PollStep(t));
    if t'.yielded > t.yielded {
      assert Timers.Enabled(t', DropTimer);
    }
  }

  // ---------- the two together ----------

  ghost predicate BeatInv(b: Beat, expected: nat, grace: nat) {
    && b.server.now == b.now && b.client.now == b.now && !b.crashed
    && ServerInv(b.since, b.server, b.log, expected)
    && ClientInv(b.client, b.heard, b.missed, grace)
  }

  lemma HandledInv(b: Beat, event: ClientEvent, expected: nat, grace: nat)
    requires BeatInv(b, expected, grace) && !event.Heartbeat? && !event.Connected?
    ensures BeatInv(Handled(b, event), expected, grace)
  {
    var reaction := React(b.active, event);
    ResetInUse(b.server, expected);
    OutputOf(b.active, event);
    if reaction.output.Some? {
      ServerWriteInv(b.since, b.server, b.log, expected, reaction.output.value);
    }
    if FromTheClient(event) {
      ClientHearInv(b.client, b.heard, b.missed, grace);
    }
    assert b.log + [] == b.log;
  }

  /** The server's timer is reset for messages and for nothing else; an end-of-line answers nothing but the timer. */
  lemma OutputOf(active: ActiveTable, event: ClientEvent)
    ensures var reaction := React(active, event);
      && (reaction.resetsServerTimer <==> reaction.output.Some? && IsMessage(reaction.output.value))
      && (reaction.resetsClientTimer <==> FromTheClient(event))
      && (reaction.output == Some(Eol) <==> event.Heartbeat?)
  {
    if event.ClientFrame? && event.frame.Ok? {
      FrameOutputOf(active, event.frame.value);
    }
  }

  lemma FrameOutputOf(active: ActiveTable, frame: ClientFrame)
    ensures var reaction := ReactToFrame(active, frame);
      && !reaction.resetsServerTimer && !reaction.resetsClientTimer && (reaction.output.Some? ==> reaction.output.value.Frame? && reaction.output.value.frame.Error?)
  {
  }

  lemma PassInv(b: Beat, ms: nat, expected: nat, grace: nat)
    requires BeatInv(b, expected, grace) && Possible(b, Pass(ms))
    ensures BeatInv(Move(b, Pass(ms)), expected, grace)
  {
    ServerPassInv(b.since, b.server, b.log, expected, ms);
    ClientPassInv(b.client, b.heard, b.missed, grace, ms);
  }

  lemma TaskInv(b: Beat, step: BeatStep, expected: nat, grace: nat)
    requires BeatInv(b, expected, grace) && Possible(b, step) && (step.ServerTask? || step.ClientTask?)
    ensures BeatInv(Move(b, step), expected, grace)
  {
    match step
    case ServerTask(taskStep) => ServerTaskInv(b.since, b.server, b.log, expected, taskStep);
    case ClientTask(taskStep) => ClientTaskInv(b.client, b.heard, b.missed, grace, taskStep);
  }

  lemma TickWrites(b: Beat)
    ensures Written(b, React(b.active, ClientEvent.Heartbeat).output) == b.log + [Stamped(b.now, Eol)]
  {
  }

  lemma PollServerInv(b: Beat, expected: nat, grace: nat)
    requires BeatInv(b, expected, grace) && Possible(b, PollServer)
    ensures BeatInv(Move(b, PollServer), expected, grace)
  {
    TickWrites(b);
    var server := Timers.Apply(b.server, PollStep(b.server));
    ServerPollInv(b.since, b.server, b.log, expected);
    PollInUse(b.server, expected);
    assert Move(b, PollServer)
        == b.(server := server, log := if server.yielded > b.server.yielded then b.log + [Stamped(b.now, Eol)] else b.log);
  }

  lemma PollClientInv(b: Beat, expected: nat, grace: nat)
    requires BeatInv(b, expected, grace) && Possible(b, PollClient)
    ensures BeatInv(Move(b, PollClient), expected, grace)
  {
    ClientPollInv(b.client, b.heard, b.missed, grace);
    PollInUse(b.client, grace);
  }

  lemma MoveInv(b: Beat, step: BeatStep, expected: nat, grace: nat)
    requires BeatInv(b, expected, grace) && Possible(b, step)
    ensures BeatInv(Move(b, step), expected, grace)
  {
    match step
    case Pass(ms) => PassInv(b, ms, expected, grace);
    case Handle(event) => HandledInv(b, event, expected, grace);
    case PollServer => PollServerInv(b, expected, grace);
    case DropServer => assert false;
    case PollClient => PollClientInv(b, expected, grace);
    case ServerTask(_) => TaskInv(b, step, expected, grace);
    case ClientTask(_) => TaskInv(b, step, expected, grace);
  }

  lemma {:induction false} CourseInv(b: Beat, steps: seq<BeatStep>, expected: nat, grace: nat)
    requires BeatInv(b, expected, grace) && IsCourse(b, steps)
    ensures BeatInv(AfterCourse(b, steps), expected, grace)
    decreases |steps|
  {
    if steps != [] {
      MoveInv(b, steps[0], expected, grace);
      CourseInv(Move(b, steps[0]), steps[1..], expected, grace);
    }
  }

  lemma ConnectInv(requested: HeartBeat, now: nat)
    ensures BeatInv(Connection(requested, now), ServerPeriod(requested), ClientPeriod(requested))
  {
    assert !LongSilence([now], now, ClientPeriod(requested));
  }

  // ---------- guarantees ----------

  ghost predicate CourseOf(requested: HeartBeat, b: Beat) {
    exists now: nat, steps :: IsCourse(Connection(requested, now), steps) && AfterCourse(Connection(requested, now), steps) == b
  }

  lemma InCourse(requested: HeartBeat, b: Beat)
    requires CourseOf(requested, b)
    ensures BeatInv(b, ServerPeriod(requested), ClientPeriod(requested))
  {
    var now: nat, steps :| IsCourse(Connection(requested, now), steps) && AfterCourse(Connection(requested, now), steps) == b;
    ConnectInv(requested, now);
    CourseInv(Connection(requested, now), steps, ServerPeriod(requested), ClientPeriod(requested));
  }

  /**
   The server's heartbeat. If the client expects one every p > 0 milliseconds, every window
   of p milliseconds since the connection holds a MESSAGE or an end-of-line. An end-of-line
   comes only when it is due: the signs of life before its moment are p milliseconds old or
   older, and at that moment there have been MESSAGE frames at most.
   */
  lemma ServerHeartbeat(requested: HeartBeat, b: Beat)
    requires CourseOf(requested, b) && requested.expected > 0
    ensures SignsCover(b.log, b.since, b.now, requested.expected as nat)
    ensures EolsAreDue(b.log, requested.expected as nat)
  {
    InCourse(requested, b);
  }

  /** A client that expects none gets none. */
  lemma NoHeartbeatUnasked(requested: HeartBeat, b: Beat)
    requires CourseOf(requested, b) && requested.expected == 0
    ensures b.server.fires == 0 && b.server.yielded == 0
  {
    InCourse(requested, b);
  }

  /**
   The missed heartbeat. The grace period g is six fifths of what the client supplies, as far
   as that fits 32 bits. The error is put on the session's channel at most once; only if the
   client has been silent for g milliseconds; always if it has been silent for longer; and
   never if g is zero.
   */
  lemma MissedHeartbeat(requested: HeartBeat, b: Beat)
    requires CourseOf(requested, b)
    ensures var g := if requested.supplied <= 35791394 then 6 * (requested.supplied as nat) / 5
                     else (requested.supplied as nat * 120 % 0x1_0000_0000) / 100;
      && b.missed <= 1
      && (b.missed == 1 ==> g > 0 && Silence(b.heard, b.now, g))
      && (g > 0 && LongSilence(b.heard, b.now, g) ==> b.missed == 1)
  {
    InCourse(requested, b);
    TimersAreMadeFor(requested);
  }

  /** Within `grace` milliseconds of every time it was heard, the client was heard again, or the time is not up. */
  ghost predicate Diligent(heard: seq<nat>, now: nat, grace: nat) {
    forall t <- heard :: t + grace > now || exists u <- heard :: t < u < t + grace
  }

  /** A client whose every gap is shorter than six fifths of what it promised never misses. */
  lemma DiligentClient(requested: HeartBeat, b: Beat)
    requires CourseOf(requested, b) && 0 < requested.supplied <= 35791394
    requires Diligent(b.heard, b.now, 6 * (requested.supplied as nat) / 5)
    ensures b.missed == 0
  {
    MissedHeartbeat(requested, b);
  }

  /** The same where the product does not fit 32 bits, with the grace period that is left. */
  lemma DiligentBeyondOverflow(requested: HeartBeat, b: Beat)
    requires CourseOf(requested, b) && requested.supplied > 35791394
    requires Diligent(b.heard, b.now, (requested.supplied as nat * 120 % 0x1_0000_0000) / 100)
    ensures b.missed == 0
  {
    MissedHeartbeat(requested, b);
  }

  /** After exactly the grace period time stands still until the error is out, or the client is heard. */
  lemma NoWaitingPastGrace(requested: HeartBeat, b: Beat, ms: nat)
    requires CourseOf(requested, b) && Possible(b, Pass(ms)) && ms > 0
    requires var g := if requested.supplied <= 35791394 then 6 * (requested.supplied as nat) / 5
                      else (requested.supplied as nat * 120 % 0x1_0000_0000) / 100;
      g > 0 && forall t <- b.heard :: t + g <= b.now
    ensures b.missed == 1
  {
    TimersAreMadeFor(requested);
    InCourse(requested, b);
    if b.missed == 0 {
      AdvanceInUse(b.client, ClientPeriod(requested), ms);
    }
  }
}
