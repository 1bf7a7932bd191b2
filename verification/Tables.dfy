/**
 What a session has made of the events it has handled: its table and its MESSAGE frames
 are those of the phases that its channel's history is in.
 */
module Tables {
  import opened Types
  import opened Channels
  import opened Reactions
  import opened Protocol
  import opened Lifecycle

  /** The MESSAGE frames for subscription `id` among the outputs. */
  function FramesFor(out: seq<Output>, id: SubscriptionId): seq<ServerFrame> {
    if out == [] then []
    else
      var last := out[|out| - 1];
      FramesFor(out[..|out| - 1], id)
      + if last.Frame? && last.frame.Message? && last.frame.subscription == id then [last.frame] else []
  }

  function FramesOf(messages: seq<OutboundMessage>, id: SubscriptionId): seq<ServerFrame> {
    seq(|messages|, i requires 0 <= i < |messages| => MessageFrame(id, messages[i]))
  }

  lemma FramesForPush(out: seq<Output>, output: Output, id: SubscriptionId)
    ensures FramesFor(out + [output], id)
            == FramesFor(out, id)
               + if output.Frame? && output.frame.Message? && output.frame.subscription == id then [output.frame] else []
  {
    assert (out + [output])[..|out|] == out;
  }

  lemma FramesOfConcat(left: seq<OutboundMessage>, right: seq<OutboundMessage>, id: SubscriptionId)
    ensures FramesOf(left + right, id) == FramesOf(left, id) + FramesOf(right, id)
  {
  }

  ghost predicate EntryMatches(active: ActiveTable, phase: Phase, id: SubscriptionId) {
    && (id in active <==> phase.Open?)
    && (id in active ==> active[id] == (phase.destination, phase.subscription))
  }

  /** Table and frames agree with the events handled, as far as subscription `id` goes. */
  ghost predicate Reflects(active: ActiveTable, out: seq<Output>, handled: seq<ClientEvent>, id: SubscriptionId) {
    var phase := PhaseOf(handled, id);
    EntryMatches(active, phase, id) && FramesFor(out, id) == FramesOf(MessagesIn(phase), id)
  }

  ghost predicate Faithful(session: Session) {
    session.inbox.Valid() && forall id :: Reflects(session.active, session.out, session.inbox.Taken(), id)
  }

  ghost predicate AllFaithful(sys: System) {
    forall sid <- sys.sessions :: Faithful(sys.sessions[sid])
  }

  /** A session that has handled nothing more still reflects what it has handled. */
  lemma FaithfulFrame(session: Session, session': Session)
    requires Faithful(session) && session'.inbox.Valid() && session'.inbox.Taken() == session.inbox.Taken()
    requires session'.active == session.active && session'.out == session.out
    ensures Faithful(session')
  {
    forall id ensures Reflects(session'.active, session'.out, session'.inbox.Taken(), id) {
      assert Reflects(session.active, session.out, session.inbox.Taken(), id);
    }
  }

  function Written(out: seq<Output>, reaction: Reaction): seq<Output> {
    if reaction.state.Alive? && reaction.output.Some? then out + [reaction.output.value] else out
  }

  /** Handling an event of one's own channel advances exactly the subscription it concerns. */
  lemma InternalReflects(active: ActiveTable, out: seq<Output>, handled: seq<ClientEvent>, event: ClientEvent, id: SubscriptionId)
    requires Reflects(active, out, handled, id) && Internal(event)
    requires !PhaseOf(handled + [event], id).Broken?
    ensures Reflects(React(active, event).active, Written(out, React(active, event)), handled + [event], id)
  {
    var reaction := React(active, event);
    PhaseOfPush(handled, event, id);
    if reaction.output.Some? {
      FramesForPush(out, reaction.output.value, id);
    }
    if event.ServerMessage? && event.subscription == id {
      FramesOfConcat(MessagesIn(PhaseOf(handled, id)), [event.message], id);
      assert FramesOf([event.message], id) == [MessageFrame(id, event.message)];
    }
  }

  lemma ExternalQuiet(active: ActiveTable, event: ClientEvent)
    requires External(event) || event.Connected?
    ensures React(active, event).active == active
    ensures var output := React(active, event).output;
      output.Some? && output.value.Frame? ==> !output.value.frame.Message?
  {
    if event.ClientFrame? && event.frame.Ok? {
      assert React(active, event) == ReactToFrame(active, event.frame.value).(resetsClientTimer := true);
    }
  }

  /** Handling any other event advances none. */
  lemma QuietReflects(active: ActiveTable, out: seq<Output>, handled: seq<ClientEvent>, reaction: Reaction, id: SubscriptionId)
    requires Reflects(active, out, handled, id) && reaction.active == active
    requires reaction.output.Some? && reaction.output.value.Frame? ==> !reaction.output.value.frame.Message?
    ensures Reflects(reaction.active, Written(out, reaction), handled, id)
  {
    if reaction.output.Some? {
      FramesForPush(out, reaction.output.value, id);
    }
  }

  lemma SettleTaken(session: Session, reaction: Reaction)
    requires session.inbox.Valid()
    ensures Settle(session, reaction).inbox.Valid()
    ensures Settle(session, reaction).inbox.Taken() == session.inbox.Taken()
    ensures Settle(session, reaction).out == Written(session.out, reaction)
  {
    assert session.out + [] == session.out;
  }

  /** `own` says whether the event came through the session's own channel. */
  lemma SettleFaithful(session: Session, before: Session, event: ClientEvent, own: bool)
    requires Faithful(before) && session.inbox.Valid() && session.active == before.active && session.out == before.out
    requires if own
             then Internal(event) && session.inbox.Taken() == before.inbox.Taken() + [event]
                  && forall id :: !PhaseOf(session.inbox.Taken(), id).Broken?
             else (External(event) || event.Connected?) && session.inbox.Taken() == before.inbox.Taken()
    ensures Faithful(Settle(session, React(session.active, event)))
  {
    var reaction := React(session.active, event);
    SettleTaken(session, reaction);
    var session' := Settle(session, reaction);
    forall id ensures Reflects(session'.active, session'.out, session'.inbox.Taken(), id) {
      assert Reflects(before.active, before.out, before.inbox.Taken(), id);
      if own {
        InternalReflects(before.active, before.out, before.inbox.Taken(), event, id);
      } else {
        ExternalQuiet(before.active, event);
        QuietReflects(before.active, before.out, before.inbox.Taken(), reaction, id);
      }
    }
  }

  // ---------- steps ----------

  /** The session is as it was, but for what the others may do to its channel. */
  ghost predicate Untouched(session: Session, session': Session) {
    && session'.active == session.active && session'.out == session.out
    && session'.inbox.received == session.inbox.received && session.inbox.sent <= session'.inbox.sent
  }

  lemma UntouchedFaithful(session: Session, session': Session)
    requires Faithful(session) && Untouched(session, session')
    ensures Faithful(session')
  {
    assert session'.inbox.Taken() == session.inbox.Taken();
    FaithfulFrame(session, session');
  }

  lemma CallUntouched(sys: System, sid: SessionId, call: Call)
    requires sid in sys.sessions
    ensures var sys' := MakeCall(sys, sid, call);
      NoneTouched(sys, sys')
  {
  }

  lemma HandleFaithful(sys: System, sid: SessionId, session: Session, event: ClientEvent, own: bool)
    requires AllFaithful(sys) && sid in sys.sessions
    requires var before := sys.sessions[sid];
      && session.inbox.Valid() && session.active == before.active && session.out == before.out
      && if own
         then Internal(event) && session.inbox.Taken() == before.inbox.Taken() + [event]
              && forall id :: !PhaseOf(session.inbox.Taken(), id).Broken?
         else External(event) && session.inbox.Taken() == before.inbox.Taken()
    ensures AllFaithful(Handle(sys, sid, session, event))
  {
    SettleFaithful(session, sys.sessions[sid], event, own);
    RespondFaithful(sys, sid, session, React(session.active, event));
  }

  lemma RespondFaithful(sys: System, sid: SessionId, session: Session, reaction: Reaction)
    requires AllFaithful(sys) && sid in sys.sessions && Faithful(Settle(session, reaction))
    ensures AllFaithful(Respond(sys, sid, session, reaction))
  {
    var sys' := sys.(sessions := sys.sessions[sid := Settle(session, reaction)]);
    assert AllFaithful(sys');
    if reaction.call.Some? {
      CallUntouched(sys', sid, reaction.call.value);
      AllUntouched(sys', MakeCall(sys', sid, reaction.call.value));
    }
  }

  lemma AllUntouched(sys: System, sys': System)
    requires AllFaithful(sys) && NoneTouched(sys, sys')
    ensures AllFaithful(sys')
  {
    forall sid <- sys'.sessions ensures Faithful(sys'.sessions[sid]) {
      UntouchedFaithful(sys.sessions[sid], sys'.sessions[sid]);
    }
  }

  /** A session that has just sent its CONNECTED frame has handled nothing and shows nothing. */
  lemma AcceptFaithful(heartbeat: HeartBeat)
    ensures Faithful(Settle(Session(Empty(), map[], [], false), React(map[], ClientEvent.Connected(Swapped(heartbeat)))))
  {
    var session := Session(Empty(), map[], [], false);
    assert session.inbox.Taken() == [];
    assert Faithful(session);
    SettleFaithful(session, session, ClientEvent.Connected(Swapped(heartbeat)), false);
  }

  /** Every step keeps the sessions faithful, as long as no channel's history is broken. */
  lemma StepFaithful(sys: System, step: Step)
    requires AllFaithful(sys) && Enabled(sys, step)
    requires step.FromServer? ==>
               var inbox := sys.sessions[step.session].inbox;
               Internal(inbox.sent[inbox.received]) && forall id :: !PhaseOf(inbox.Pop().Taken(), id).Broken?
    ensures AllFaithful(Apply(sys, step))
  {
    match step
    case Accept(sid, heartbeat) => AcceptFaithful(heartbeat);
    case FromClient(sid, event) => HandleFaithful(sys, sid, sys.sessions[sid], event, false);
    case FromServer(sid) =>
      var session := sys.sessions[sid];
      assert session.inbox.Pop().Taken() == session.inbox.Taken() + [session.inbox.sent[session.inbox.received]];
      HandleFaithful(sys, sid, session.(inbox := session.inbox.Pop()), session.inbox.sent[session.inbox.received], true);
    case _ =>
      OthersUntouched(sys, step, Apply(sys, step));
      AllUntouched(sys, Apply(sys, step));
  }

  ghost predicate NoneTouched(sys: System, sys': System) {
    && sys'.sessions.Keys == sys.sessions.Keys
    && (forall sid <- sys.sessions :: Untouched(sys.sessions[sid], sys'.sessions[sid]))
  }

  lemma RunTaskUntouched(sys: System, n: nat)
    requires n in sys.tasks && sys.tasks[n].destination in sys.dests
    ensures NoneTouched(sys, RunSubscribeTask(sys, n))
  {
  }

  lemma AddUntouched(sys: System, d: DestinationId, u: SubscriptionId)
    requires Takes(sys, d) && NextAction(sys.dests[d]).value.Subscribe?
    ensures NoneTouched(sys, AddSubscription(sys, d, u))
  {
  }

  lemma RemoveUntouched(sys: System, d: DestinationId)
    requires Takes(sys, d) && NextAction(sys.dests[d]).value.Unsubscribe?
    ensures NoneTouched(sys, RemoveSubscription(sys, d))
  {
  }

  lemma DeliverUntouched(sys: System, d: DestinationId, u: SubscriptionId)
    requires d in sys.dests && sys.dests[d].fanOut.Some? && u in sys.dests[d].fanOut.value.remaining
    ensures NoneTouched(sys, DeliverOne(sys, d, u))
  {
  }

  /** No step but a session's own touches more of it than its channel. */
  lemma OthersUntouched(sys: System, step: Step, sys': System)
    requires Enabled(sys, step) && sys' == Apply(sys, step)
    requires !step.Accept? && !step.FromClient? && !step.FromServer?
    ensures NoneTouched(sys, sys')
  {
    match step
    case RunTask(n) => RunTaskUntouched(sys, n);
    case TakeSubscribe(d, u) => AddUntouched(sys, d, u);
    case TakeUnsubscribe(d) => RemoveUntouched(sys, d);
    case Deliver(d, u) => DeliverUntouched(sys, d, u);
    case _ =>
  }
}
