/**
 What each event does, spelled out step by step: what the session writes, keeps and puts on
 its own channel, and what reaches the destinations. Nothing here is said in terms of
 `React`; these lemmas pin it down.
 */
module Effects {
  import opened Types
  import opened Channels
  import opened Actions
  import opened Reactions
  import opened Protocol
  import opened Bookkeeping
  import opened Accounts
  import opened WindDown

  /** In this step the session handles the event, from its own channel or from another stream. */
  predicate Handles(sys: System, step: Step, sid: SessionId, event: ClientEvent) {
    && Enabled(sys, step)
    && (|| step == FromClient(sid, event)
        || (step == FromServer(sid) && sys.sessions[sid].inbox.sent[sys.sessions[sid].inbox.received] == event))
  }

  /** The session after a step: its table, what it has written, whether it has sent itself a Close, and whether it lives. */
  ghost predicate Becomes(sys: System, sys': System, step: Step, sid: SessionId, active: ActiveTable, written: seq<Output>,
                          closes: bool, alive: bool)
    requires sid in sys.sessions
  {
    var session := sys.sessions[sid];
    && sid in sys'.sessions && sys'.sessions == sys.sessions[sid := sys'.sessions[sid]]
    && var session' := sys'.sessions[sid];
       && session'.active == active
       && session'.out == session.out + written
       && session'.inbox.sent == (if closes then session.inbox.sent + [ClientEvent.Close] else session.inbox.sent)
       && session'.inbox.received == session.inbox.received + (if step.FromServer? then 1 else 0)
       && session'.inbox.open == alive
       && session'.crashed == session.crashed
  }

  /** Destinations and tasks are left alone. */
  ghost predicate NothingElse(sys: System, sys': System) {
    sys'.dests == sys.dests && sys'.tasks == sys.tasks && sys'.spawned == sys.spawned && sys'.stages == sys.stages
  }

  // ---------- errors ----------

  /** An ERROR frame with the text, and a Close behind everything queued; the session lives on until it gets there. */
  ghost predicate AnsweredWithError(sys: System, step: Step, sid: SessionId, text: string)
    requires Enabled(sys, step) && sid in sys.sessions
  {
    && Becomes(sys, Apply(sys, step), step, sid, sys.sessions[sid].active, [Frame(ServerFrame.Error(text))], true, true)
    && NothingElse(sys, Apply(sys, step))
  }

  /** An event that makes no call touches its own session only. */
  lemma OwnEffect(sys: System, step: Step, sid: SessionId, event: ClientEvent)
    requires Handles(sys, step, sid, event) && React(sys.sessions[sid].active, event).call.None?
    ensures Apply(sys, step).sessions
            == sys.sessions[sid := Settle(Opening(sys.sessions[sid], step), React(sys.sessions[sid].active, event))]
    ensures NothingElse(sys, Apply(sys, step))
  {
  }

  /** Failing, with or without a reset of the client's timer, is answering with ERROR. */
  lemma FailingAnswers(sys: System, step: Step, sid: SessionId, event: ClientEvent, text: string, resets: bool)
    requires Handles(sys, step, sid, event)
    requires React(sys.sessions[sid].active, event) == Fails(sys.sessions[sid].active, text).(resetsClientTimer := resets)
    ensures AnsweredWithError(sys, step, sid, text)
  {
    OwnEffect(sys, step, sid, event);
  }

  lemma ErrorIsAnswered(sys: System, step: Step, sid: SessionId, problem: string)
    requires Handles(sys, step, sid, ClientEvent.Error(problem))
    ensures AnsweredWithError(sys, step, sid, problem)
  {
    FailingAnswers(sys, step, sid, ClientEvent.Error(problem), problem, false);
  }

  lemma BadFrameIsAnswered(sys: System, step: Step, sid: SessionId, message: string)
    requires Handles(sys, step, sid, ClientEvent.ClientFrame(Err(message)))
    ensures AnsweredWithError(sys, step, sid, "Error processing client message: " + message)
  {
    FailingAnswers(sys, step, sid, ClientEvent.ClientFrame(Err(message)), "Error processing client message: " + message, true);
  }

  lemma SecondConnectIsAnswered(sys: System, step: Step, sid: SessionId, acceptVersion: seq<StompVersion>, heartbeat: HeartBeat)
    requires Handles(sys, step, sid, ClientEvent.ClientFrame(Ok(ClientFrame.Connect(acceptVersion, heartbeat))))
    ensures AnsweredWithError(sys, step, sid, "Already connected.")
  {
    FailingAnswers(sys, step, sid, ClientEvent.ClientFrame(Ok(ClientFrame.Connect(acceptVersion, heartbeat))),
                   "Already connected.", true);
  }

  lemma UnknownUnsubscribeIsAnswered(sys: System, step: Step, sid: SessionId, id: SubscriptionId)
    requires Handles(sys, step, sid, ClientEvent.ClientFrame(Ok(ClientFrame.Unsubscribe(id)))) && id !in sys.sessions[sid].active
    ensures AnsweredWithError(sys, step, sid, "Attempt to unsubscribe from unknown subscription: " + id.text)
  {
    FailingAnswers(sys, step, sid, ClientEvent.ClientFrame(Ok(ClientFrame.Unsubscribe(id))),
                   "Attempt to unsubscribe from unknown subscription: " + id.text, true);
  }

  /** The events that call for an ERROR. */
  predicate CallsForError(active: ActiveTable, event: ClientEvent) {
    || event.Error?
    || (event.ClientFrame? && event.frame.Err?)
    || (event.ClientFrame? && event.frame.Ok? && event.frame.value.Connect?)
    || (event.ClientFrame? && event.frame.Ok? && event.frame.value.Unsubscribe? && event.frame.value.id !in active)
  }

  /** Nothing else writes an ERROR or makes a session close itself. */
  lemma OnlyThoseAreErrors(sys: System, step: Step, sid: SessionId, event: ClientEvent)
    requires Handles(sys, step, sid, event) && !CallsForError(sys.sessions[sid].active, event)
    ensures sid in Apply(sys, step).sessions
    ensures var session, session' := sys.sessions[sid], Apply(sys, step).sessions[sid];
      && session'.inbox.sent == session.inbox.sent
      && (session'.out == session.out || exists output :: session'.out == session.out + [output] && !IsError(output))
  {
    var session := sys.sessions[sid];
    ErrorsOnlyThere(session.active, event);
    OwnStepEffect(sys, step, sid);
    assert EventOf(session, step) == event;
    assert session.out + [] == session.out;
  }

  lemma ErrorsOnlyThere(active: ActiveTable, event: ClientEvent)
    requires !CallsForError(active, event)
    ensures var reaction := React(active, event);
      !reaction.sendsClose && (reaction.output.Some? ==> !IsError(reaction.output.value))
  {
  }

  // ---------- frames ----------

  /** SUBSCRIBE spawns exactly one task, for the destination and the id in the frame. */
  lemma SubscribeSpawns(sys: System, step: Step, sid: SessionId, d: DestinationId, id: SubscriptionId)
    requires Reachable(sys) && Handles(sys, step, sid, ClientEvent.ClientFrame(Ok(ClientFrame.Subscribe(d, id))))
    ensures var sys' := Apply(sys, step);
      && Becomes(sys, sys', step, sid, sys.sessions[sid].active, [], false, true)
      && sys.spawned !in sys.tasks && sys'.tasks == sys.tasks[sys.spawned := SubscribeTask(sid, id, d)]
      && sys'.dests == sys.dests
  {
    ReachableSound(sys);
    assert sys.sessions[sid].out + [] == sys.sessions[sid].out;
  }

  /** SEND hands the destination of the frame, if it exists, the body of the frame, and no other destination anything. */
  lemma SendHands(sys: System, step: Step, sid: SessionId, d: DestinationId, body: seq<byte>)
    requires Handles(sys, step, sid, ClientEvent.ClientFrame(Ok(ClientFrame.Send(d, body))))
    ensures var sys', action := Apply(sys, step), DestinationAction.Send(InboundMessage(None, body), sid);
      && Becomes(sys, sys', step, sid, sys.sessions[sid].active, [], false, true)
      && sys'.tasks == sys.tasks
      && (d !in sys.dests ==> sys'.dests == sys.dests)
      && (d in sys.dests ==>
            && d in sys'.dests && sys'.dests == sys.dests[d := sys'.dests[d]]
            && HandsOver(sys.dests[d], sys'.dests[d], action))
  {
    assert sys.sessions[sid].out + [] == sys.sessions[sid].out;
  }

  /** An open queue grows by the action at its end; a closed one refuses it. The table does not change either way. */
  ghost predicate HandsOver(dest: Dest, dest': Dest, action: Action) {
    && dest'.queue.received == dest.queue.received && dest'.queue.open == dest.queue.open
    && dest'.queue.sent == (if dest.queue.open then dest.queue.sent + [action] else dest.queue.sent)
    && dest'.refused == (if dest.queue.open then dest.refused else dest.refused + multiset{action})
    && dest'.table == dest.table && dest'.log == dest.log && dest'.crashed == dest.crashed
  }

  /** UNSUBSCRIBE of an active id hands its destination the destination's own id of it; the entry stays until the answer. */
  lemma UnsubscribeHands(sys: System, step: Step, sid: SessionId, id: SubscriptionId)
    requires Handles(sys, step, sid, ClientEvent.ClientFrame(Ok(ClientFrame.Unsubscribe(id)))) && id in sys.sessions[sid].active
    ensures var (d, u) := sys.sessions[sid].active[id];
      var sys', active := Apply(sys, step), sys.sessions[sid].active;
      && sys'.tasks == sys.tasks
      && (d !in sys.dests ==> sys'.dests == sys.dests && Becomes(sys, sys', step, sid, active, [], false, true))
      && (d in sys.dests ==>
            && d in sys'.dests && sys'.dests == sys.dests[d := sys'.dests[d]]
            && HandsOver(sys.dests[d], sys'.dests[d], DestinationAction.Unsubscribe(u, sid))
            && (sys.dests[d].queue.open ==> Becomes(sys, sys', step, sid, active, [], false, true))
            && (!sys.dests[d].queue.open ==> sid in sys'.sessions && sys'.sessions[sid].crashed && !Live(sys', sid)))
  {
    var session := sys.sessions[sid];
    var (d, u) := session.active[id];
    var reaction := React(session.active, ClientEvent.ClientFrame(Ok(ClientFrame.Unsubscribe(id))));
    assert reaction == Quiet(session.active).(call := Some(UnsubscribeFrom(d, u)), resetsClientTimer := true);
    assert session.out + [] == session.out;
    var settled := sys.(sessions := sys.sessions[sid := Settle(Opening(session, step), reaction)]);
    assert Apply(sys, step) == MakeCall(settled, sid, UnsubscribeFrom(d, u));
    UnsubscribeCallHands(settled, sid, d, u);
  }

  lemma UnsubscribeCallHands(sys: System, sid: SessionId, d: DestinationId, u: SubscriptionId)
    requires sid in sys.sessions
    ensures var sys' := MakeCall(sys, sid, UnsubscribeFrom(d, u));
      && sys'.tasks == sys.tasks
      && (d !in sys.dests ==> sys' == sys)
      && (d in sys.dests ==>
            && d in sys'.dests && sys'.dests == sys.dests[d := sys'.dests[d]]
            && HandsOver(sys.dests[d], sys'.dests[d], DestinationAction.Unsubscribe(u, sid))
            && sys'.sessions == if sys.dests[d].queue.open then sys.sessions else sys.sessions[sid := CrashSession(sys.sessions[sid])])
  {
  }

  /** DISCONNECT and Close end the session at once, without a word. */
  lemma EndingEnds(sys: System, step: Step, sid: SessionId, event: ClientEvent)
    requires Handles(sys, step, sid, event)
    requires event.Close? || event == ClientEvent.ClientFrame(Ok(ClientFrame.Disconnect))
    ensures Becomes(sys, Apply(sys, step), step, sid, sys.sessions[sid].active, [], false, false)
    ensures NothingElse(sys, Apply(sys, step))
  {
    assert sys.sessions[sid].out + [] == sys.sessions[sid].out;
  }

  // ---------- heartbeats ----------

  lemma HeartbeatWritesEol(sys: System, step: Step, sid: SessionId)
    requires Handles(sys, step, sid, ClientEvent.Heartbeat)
    ensures Becomes(sys, Apply(sys, step), step, sid, sys.sessions[sid].active, [Eol], false, true)
    ensures NothingElse(sys, Apply(sys, step))
  {
  }

  lemma ClientHeartbeatIsQuiet(sys: System, step: Step, sid: SessionId)
    requires Handles(sys, step, sid, ClientHeartbeat)
    ensures Becomes(sys, Apply(sys, step), step, sid, sys.sessions[sid].active, [], false, true)
    ensures NothingElse(sys, Apply(sys, step))
  {
    assert sys.sessions[sid].out + [] == sys.sessions[sid].out;
  }

  /** Which timer an event resets: the client's for what comes from the client, the server's for a message, and no other. */
  lemma ResetsAre(active: ActiveTable, event: ClientEvent)
    ensures React(active, event).resetsClientTimer <==> event.ClientFrame? || event.ClientHeartbeat?
    ensures React(active, event).resetsServerTimer <==> event.ServerMessage?
  {
  }

  // ---------- callbacks and messages ----------

  /** A message is written as a MESSAGE frame, every field of which comes from it. */
  lemma ServerMessageIsWritten(sys: System, step: Step, sid: SessionId, id: SubscriptionId, message: OutboundMessage)
    requires Handles(sys, step, sid, ServerMessage(id, message))
    ensures sid in Apply(sys, step).sessions && |Apply(sys, step).sessions[sid].out| == |sys.sessions[sid].out| + 1
    ensures var output := Apply(sys, step).sessions[sid].out[|sys.sessions[sid].out|];
      && output.Frame? && Carries(output.frame, message, id)
      && Becomes(sys, Apply(sys, step), step, sid, sys.sessions[sid].active, [output], false, true)
      && NothingElse(sys, Apply(sys, step))
  {
    MessageFrameCarries(id, message);
  }

  lemma SubscribedIsKept(sys: System, step: Step, sid: SessionId, d: DestinationId, id: SubscriptionId, result: Result<SubscriptionId>)
    requires Handles(sys, step, sid, Subscribed(d, id, result))
    ensures Becomes(sys, Apply(sys, step), step, sid,
                    if result.Ok? then sys.sessions[sid].active[id := (d, result.value)] else sys.sessions[sid].active,
                    [], false, true)
    ensures NothingElse(sys, Apply(sys, step))
  {
    assert sys.sessions[sid].out + [] == sys.sessions[sid].out;
  }

  lemma UnsubscribedIsDropped(sys: System, step: Step, sid: SessionId, id: SubscriptionId, result: Result<SubscriptionId>)
    requires Handles(sys, step, sid, Unsubscribed(id, result))
    ensures Becomes(sys, Apply(sys, step), step, sid,
                    if result.Ok? then sys.sessions[sid].active - {id} else sys.sessions[sid].active,
                    [], false, true)
    ensures NothingElse(sys, Apply(sys, step))
  {
    assert sys.sessions[sid].out + [] == sys.sessions[sid].out;
  }

  /** A new session has written CONNECTED, with the pair that was asked for the other way round, and nothing else. */
  lemma GreetingIsWritten(sys: System, sid: SessionId, heartbeat: HeartBeat)
    requires Enabled(sys, Accept(sid, heartbeat))
    ensures Apply(sys, Accept(sid, heartbeat)).sessions
            == sys.sessions[sid := Session(Empty(), map[],
                                           [Frame(ServerFrame.Connected(V1_2, HeartBeat(heartbeat.expected, heartbeat.supplied)))],
                                           false)]
    ensures NothingElse(sys, Apply(sys, Accept(sid, heartbeat)))
  {
    var session := Apply(sys, Accept(sid, heartbeat)).sessions[sid];
    assert session.out == [Frame(ServerFrame.Connected(V1_2, HeartBeat(heartbeat.expected, heartbeat.supplied)))];
  }

  // ---------- a missed heartbeat ----------

  /** An Error event sits at index `n` of the channel; if it has been handled, it has been answered. */
  ghost predicate ErrorAt(session: Session, n: nat, problem: string) {
    && n < |session.inbox.sent| && session.inbox.sent[n] == ClientEvent.Error(problem)
    && (session.inbox.received > n ==> Frame(ServerFrame.Error(problem)) in session.out)
  }

  lemma StepAnswers(sys: System, step: Step, sid: SessionId, n: nat, problem: string)
    requires Enabled(sys, step) && sid in sys.sessions && ErrorAt(sys.sessions[sid], n, problem)
    ensures sid in Apply(sys, step).sessions && ErrorAt(Apply(sys, step).sessions[sid], n, problem)
    ensures Apply(sys, step).sessions[sid].inbox.received
            == sys.sessions[sid].inbox.received + if step == FromServer(sid) then 1 else 0
  {
    if OwnStep(step, sid) {
      OwnStepEffect(sys, step, sid);
      if step.FromServer? && sys.sessions[sid].inbox.received == n {
        ErrorIsAnswered(sys, step, sid, problem);
      }
    } else {
      OtherStepEffect(sys, step, sid);
    }
  }

  lemma {:induction false} RunAnswers(sys: System, steps: seq<Step>, sid: SessionId, n: nat, problem: string)
    requires IsRun(sys, steps) && sid in sys.sessions && ErrorAt(sys.sessions[sid], n, problem)
    ensures sid in After(sys, steps).sessions && ErrorAt(After(sys, steps).sessions[sid], n, problem)
    ensures After(sys, steps).sessions[sid].inbox.received == sys.sessions[sid].inbox.received + Served(steps, sid)
    decreases |steps|
  {
    if steps != [] {
      StepAnswers(sys, steps[0], sid, n, problem);
      RunAnswers(Apply(sys, steps[0]), steps[1..], sid, n, problem);
    }
  }

  lemma {:induction false} RunConcat(sys: System, first: seq<Step>, second: seq<Step>)
    requires IsRun(sys, first) && IsRun(After(sys, first), second)
    ensures IsRun(sys, first + second) && After(sys, first + second) == After(After(sys, first), second)
    decreases |first|
  {
    if first == [] {
      assert first + second == second;
    } else {
      assert (first + second)[1..] == first[1..] + second;
      RunConcat(Apply(sys, first[0]), first[1..], second);
    }
  }

  lemma StillReachable(sys: System, steps: seq<Step>)
    requires Reachable(sys) && IsRun(sys, steps)
    ensures Reachable(After(sys, steps))
  {
    var before :| IsRun(INITIAL, before) && After(INITIAL, before) == sys;
    RunConcat(INITIAL, before, steps);
  }

  lemma MissIsQueued(sys: System, sid: SessionId)
    requires Live(sys, sid)
    ensures var session' := Apply(sys, MissHeartbeat(sid)).sessions[sid];
      && session'.inbox.sent == sys.sessions[sid].inbox.sent + [ClientEvent.Error("Missed heartbeat")]
      && session'.inbox.received == sys.sessions[sid].inbox.received
  {
  }

  /** Once the channel has been served up to the error of a missed heartbeat, ERROR has been written. */
  lemma MissedHeartbeatIsAnswered(sys: System, sid: SessionId, steps: seq<Step>)
    requires Reachable(sys) && Live(sys, sid) && IsRun(Apply(sys, MissHeartbeat(sid)), steps)
    requires sys.sessions[sid].inbox.received + Served(steps, sid) > |sys.sessions[sid].inbox.sent|
    ensures var sys' := After(Apply(sys, MissHeartbeat(sid)), steps);
      sid in sys'.sessions && Frame(ServerFrame.Error("Missed heartbeat")) in sys'.sessions[sid].out
  {
    ReachableSound(sys);
    InboxValid(sys, sid);
    MissIsQueued(sys, sid);
    RunAnswers(Apply(sys, MissHeartbeat(sid)), steps, sid, |sys.sessions[sid].inbox.sent|, "Missed heartbeat");
  }

  lemma OneStepRun(sys: System, step: Step)
    requires Enabled(sys, step)
    ensures IsRun(sys, [step]) && After(sys, [step]) == Apply(sys, step)
  {
    assert [step][1..] == [];
  }

  /**
   A missed heartbeat ends the session of a served channel: when the channel has been served
   up to the error, and then as far as it reached at that time, ERROR "Missed heartbeat" has
   been written and the session is dead, if it did not die before.
   */
  lemma MissedHeartbeatEnds(sys: System, sid: SessionId, first: seq<Step>, second: seq<Step>)
    requires Reachable(sys) && Live(sys, sid) && IsRun(Apply(sys, MissHeartbeat(sid)), first)
    requires sys.sessions[sid].inbox.received + Served(first, sid) > |sys.sessions[sid].inbox.sent|
    requires var sys1 := After(Apply(sys, MissHeartbeat(sid)), first);
      && IsRun(sys1, second) && sid in sys1.sessions
      && sys1.sessions[sid].inbox.received + Served(second, sid) >= |sys1.sessions[sid].inbox.sent|
    ensures var sys2 := After(After(Apply(sys, MissHeartbeat(sid)), first), second);
      && sid in sys2.sessions && !Live(sys2, sid)
      && Frame(ServerFrame.Error("Missed heartbeat")) in sys2.sessions[sid].out
  {
    var sys0 := Apply(sys, MissHeartbeat(sid));
    var sys1 := After(sys0, first);
    var n := |sys.sessions[sid].inbox.sent|;
    ReachableSound(sys);
    InboxValid(sys, sid);
    MissIsQueued(sys, sid);
    RunAnswers(sys0, first, sid, n, "Missed heartbeat");
    RunAnswers(sys1, second, sid, n, "Missed heartbeat");
    if Live(sys1, sid) {
      OneStepRun(sys, MissHeartbeat(sid));
      StillReachable(sys, [MissHeartbeat(sid)]);
      StillReachable(sys0, first);
      assert IsError(Frame(ServerFrame.Error("Missed heartbeat")));
      ErrorLeadsToClose(sys1, sid);
      var k :| Winding(sys1.sessions[sid], k);
      ServedToDeath(sys1, sid, k, second);
    } else {
      DeadForever(sys1, sid, second);
    }
  }
}
