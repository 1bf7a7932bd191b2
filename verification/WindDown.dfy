/**
 How a session ends: after an ERROR frame a Close is on its way, what can still be written
 is bounded by what is queued ahead of that Close, and a dead session never changes again.
 */
module WindDown {
  import opened Types
  import opened Channels
  import opened Actions
  import opened Reactions
  import opened Protocol
  import opened Bookkeeping
  import opened Tables
  import opened Accounts

  // ---------- what one step does to one session ----------

  /** The session as it is when it starts handling an event of its own step. */
  function Opening(session: Session, step: Step): Session {
    if step.FromServer? then session.(inbox := session.inbox.Pop()) else session
  }

  function EventOf(session: Session, step: Step): ClientEvent
    requires step.FromClient? || (step.FromServer? && session.inbox.received < |session.inbox.sent|)
  {
    if step.FromClient? then step.event else session.inbox.sent[session.inbox.received]
  }

  predicate OwnStep(step: Step, sid: SessionId) {
    (step.FromClient? || step.FromServer?) && step.session == sid
  }

  lemma RespondOwn(sys: System, sid: SessionId, session: Session, reaction: Reaction)
    requires sid in sys.sessions
    ensures Respond(sys, sid, session, reaction).sessions.Keys == sys.sessions.Keys
    ensures forall other <- sys.sessions :: other != sid ==>
              Respond(sys, sid, session, reaction).sessions[other] == sys.sessions[other]
    ensures var settled, session' := Settle(session, reaction), Respond(sys, sid, session, reaction).sessions[sid];
      session' == settled || session' == CrashSession(settled)
  {
  }

  lemma OwnStepEffect(sys: System, step: Step, sid: SessionId)
    requires Enabled(sys, step) && OwnStep(step, sid)
    ensures sid in Apply(sys, step).sessions
    ensures var session := sys.sessions[sid];
      var settled := Settle(Opening(session, step), React(session.active, EventOf(session, step)));
      Apply(sys, step).sessions[sid] == settled || Apply(sys, step).sessions[sid] == CrashSession(settled)
  {
    var session := sys.sessions[sid];
    RespondOwn(sys, sid, Opening(session, step), React(session.active, EventOf(session, step)));
  }

  /** A step that is not its own can only put an event on a live session's channel, or drop it. */
  ghost predicate Bystander(session: Session, session': Session) {
    && Untouched(session, session') && session'.crashed == session.crashed
    && (session'.inbox.open ==> session.inbox.open)
    && (!session.inbox.open ==> session' == session)
  }

  lemma OtherStepEffect(sys: System, step: Step, sid: SessionId)
    requires Enabled(sys, step) && !OwnStep(step, sid) && sid in sys.sessions
    ensures sid in Apply(sys, step).sessions && Bystander(sys.sessions[sid], Apply(sys, step).sessions[sid])
  {
    match step
    case FromClient(other, event) => RespondOwn(sys, other, sys.sessions[other], React(sys.sessions[other].active, event));
    case FromServer(other) =>
      var session := sys.sessions[other];
      RespondOwn(sys, other, Opening(session, step), React(session.active, EventOf(session, step)));
    case RunTask(n) => RunTaskBystander(sys, n, sid);
    case TakeSubscribe(d, u) => AddBystander(sys, d, u, sid);
    case TakeUnsubscribe(d) => RemoveBystander(sys, d, sid);
    case Deliver(d, u) => DeliverBystander(sys, d, u, sid);
    case _ =>
  }

  lemma RunTaskBystander(sys: System, n: nat, sid: SessionId)
    requires n in sys.tasks && sys.tasks[n].destination in sys.dests && sid in sys.sessions
    ensures sid in RunSubscribeTask(sys, n).sessions && Bystander(sys.sessions[sid], RunSubscribeTask(sys, n).sessions[sid])
  {
  }

  lemma AddBystander(sys: System, d: DestinationId, u: SubscriptionId, sid: SessionId)
    requires Takes(sys, d) && NextAction(sys.dests[d]).value.Subscribe? && sid in sys.sessions
    ensures sid in AddSubscription(sys, d, u).sessions && Bystander(sys.sessions[sid], AddSubscription(sys, d, u).sessions[sid])
  {
  }

  lemma RemoveBystander(sys: System, d: DestinationId, sid: SessionId)
    requires Takes(sys, d) && NextAction(sys.dests[d]).value.Unsubscribe? && sid in sys.sessions
    ensures sid in RemoveSubscription(sys, d).sessions && Bystander(sys.sessions[sid], RemoveSubscription(sys, d).sessions[sid])
  {
  }

  lemma DeliverBystander(sys: System, d: DestinationId, u: SubscriptionId, sid: SessionId)
    requires d in sys.dests && sys.dests[d].fanOut.Some? && u in sys.dests[d].fanOut.value.remaining && sid in sys.sessions
    ensures sid in DeliverOne(sys, d, u).sessions && Bystander(sys.sessions[sid], DeliverOne(sys, d, u).sessions[sid])
  {
  }

  // ---------- dead sessions ----------

  /** A session that has died writes nothing, and its table and everything else of it stay as they are, for ever. */
  lemma {:induction false} DeadForever(sys: System, sid: SessionId, steps: seq<Step>)
    requires sid in sys.sessions && !Live(sys, sid) && IsRun(sys, steps)
    ensures sid in After(sys, steps).sessions && After(sys, steps).sessions[sid] == sys.sessions[sid]
    decreases |steps|
  {
    if steps != [] {
      OtherStepEffect(sys, steps[0], sid);
      DeadForever(Apply(sys, steps[0]), sid, steps[1..]);
    }
  }

  // ---------- CONNECTED ----------

  /** CONNECTED comes first, and once. */
  predicate Greeted(out: seq<Output>) {
    out != [] && IsConnected(out[0]) && forall i :: 0 < i < |out| ==> !IsConnected(out[i])
  }

  lemma NoSecondConnected(active: ActiveTable, event: ClientEvent)
    requires !event.Connected?
    ensures React(active, event).output.Some? ==> !IsConnected(React(active, event).output.value)
  {
  }

  ghost predicate AllGreeted(sys: System) {
    forall sid <- sys.sessions :: Greeted(sys.sessions[sid].out)
  }

  lemma StepGreeted(sys: System, step: Step)
    requires Sound(sys) && AllGreeted(sys) && Enabled(sys, step)
    ensures AllGreeted(Apply(sys, step))
  {
    var sys' := Apply(sys, step);
    forall sid <- sys'.sessions ensures Greeted(sys'.sessions[sid].out) {
      if sid !in sys.sessions {
        NewcomerGreeted(sys, step, sid);
      } else if OwnStep(step, sid) {
        OwnGreeted(sys, step, sid);
      } else {
        OtherStepEffect(sys, step, sid);
      }
    }
  }

  lemma OwnGreeted(sys: System, step: Step, sid: SessionId)
    requires Enabled(sys, step) && OwnStep(step, sid) && SessionKnown(sys.dests, sid, sys.sessions[sid])
    requires Greeted(sys.sessions[sid].out)
    ensures Greeted(Apply(sys, step).sessions[sid].out)
  {
    OwnStepEffect(sys, step, sid);
    var event := EventOf(sys.sessions[sid], step);
    assert External(event) || Internal(event);
    NoSecondConnected(sys.sessions[sid].active, event);
  }

  lemma NewcomerGreeted(sys: System, step: Step, sid: SessionId)
    requires Enabled(sys, step) && sid in Apply(sys, step).sessions && sid !in sys.sessions
    ensures Greeted(Apply(sys, step).sessions[sid].out)
  {
    if !step.Accept? {
      KeysKept(sys, step);
    }
  }

  lemma KeysKept(sys: System, step: Step)
    requires Enabled(sys, step) && !step.Accept?
    ensures Apply(sys, step).sessions.Keys == sys.sessions.Keys
  {
    if step.FromClient? || step.FromServer? {
      var session := sys.sessions[step.session];
      RespondOwn(sys, step.session, Opening(session, step), React(session.active, EventOf(session, step)));
    } else {
      OthersUntouched(sys, step, Apply(sys, step));
    }
  }

  // ---------- ERROR ----------

  predicate IsError(output: Output) {
    output.Frame? && output.frame.Error?
  }

  /** A Close is on the session's channel, at index `k`. */
  ghost predicate Winding(session: Session, k: nat) {
    session.inbox.received <= k < |session.inbox.sent| && session.inbox.sent[k].Close?
  }

  /** A live session that has written an ERROR frame has a Close on its channel. */
  ghost predicate ErrorsWind(session: Session) {
    session.inbox.open && (exists output <- session.out :: IsError(output)) ==> exists k :: Winding(session, k)
  }

  ghost predicate AllErrorsWind(sys: System) {
    forall sid <- sys.sessions :: ErrorsWind(sys.sessions[sid])
  }

  /** An ERROR is the output of failing, and failing sends the Close. */
  lemma ErrorsFail(active: ActiveTable, event: ClientEvent)
    ensures var reaction := React(active, event);
      reaction.output.Some? && IsError(reaction.output.value) ==> reaction.sendsClose && reaction.state.Alive?
  {
    if event.ClientFrame? && event.frame.Ok? {
      FrameErrorsFail(active, event.frame.value);
    }
  }

  lemma FrameErrorsFail(active: ActiveTable, frame: ClientFrame)
    ensures var reaction := ReactToFrame(active, frame);
      reaction.output.Some? && IsError(reaction.output.value) ==> reaction.sendsClose && reaction.state.Alive?
  {
  }

  /** Taking one's own Close is dying. */
  lemma CloseKills(active: ActiveTable, event: ClientEvent)
    ensures event.Close? ==> React(active, event).state.Dead?
  {
  }

  lemma BystanderWinds(session: Session, session': Session)
    requires ErrorsWind(session) && Bystander(session, session')
    ensures ErrorsWind(session')
  {
    if session'.inbox.open && exists output <- session'.out :: IsError(output) {
      var k :| Winding(session, k);
      assert Winding(session', k);
    }
  }

  lemma OwnWinds(session: Session, step: Step, reaction: Reaction)
    requires ErrorsWind(session) && session.inbox.Valid() && (step.FromServer? ==> session.inbox.received < |session.inbox.sent|)
    requires reaction.output.Some? && IsError(reaction.output.value) ==> reaction.sendsClose && reaction.state.Alive?
    requires step.FromServer? && session.inbox.sent[session.inbox.received].Close? ==> reaction.state.Dead?
    ensures ErrorsWind(Settle(Opening(session, step), reaction))
  {
    var session' := Settle(Opening(session, step), reaction);
    if session'.inbox.open && exists output <- session'.out :: IsError(output) {
      if reaction.sendsClose {
        assert Winding(session', |session.inbox.sent|);
      } else {
        assert session'.out == session.out || session'.out == session.out + [reaction.output.value];
        assert exists output <- session.out :: IsError(output);
        var k :| Winding(session, k);
        assert Winding(session', k);
      }
    }
  }

  lemma OwnStepWinds(sys: System, step: Step, sid: SessionId)
    requires Enabled(sys, step) && OwnStep(step, sid) && sys.sessions[sid].inbox.Valid() && ErrorsWind(sys.sessions[sid])
    ensures ErrorsWind(Apply(sys, step).sessions[sid])
  {
    var session := sys.sessions[sid];
    var event := EventOf(session, step);
    OwnStepEffect(sys, step, sid);
    ErrorsFail(session.active, event);
    CloseKills(session.active, event);
    OwnWinds(session, step, React(session.active, event));
  }

  lemma StepErrorsWind(sys: System, step: Step)
    requires Sound(sys) && AllErrorsWind(sys) && Enabled(sys, step)
    ensures AllErrorsWind(Apply(sys, step))
  {
    var sys' := Apply(sys, step);
    forall sid <- sys'.sessions ensures ErrorsWind(sys'.sessions[sid]) {
      if sid !in sys.sessions {
        NewcomerWinds(sys, step, sid);
      } else if OwnStep(step, sid) {
        assert SessionKnown(sys.dests, sid, sys.sessions[sid]);
        OwnStepWinds(sys, step, sid);
      } else {
        OtherStepEffect(sys, step, sid);
        BystanderWinds(sys.sessions[sid], sys'.sessions[sid]);
      }
    }
  }

  lemma NewcomerWinds(sys: System, step: Step, sid: SessionId)
    requires Enabled(sys, step) && sid in Apply(sys, step).sessions && sid !in sys.sessions
    ensures ErrorsWind(Apply(sys, step).sessions[sid])
  {
    if !step.Accept? {
      KeysKept(sys, step);
    }
  }

  lemma {:induction false} RunWinds(sys: System, steps: seq<Step>)
    requires Sound(sys) && AllErrorsWind(sys) && AllGreeted(sys) && IsRun(sys, steps)
    ensures AllErrorsWind(After(sys, steps)) && AllGreeted(After(sys, steps))
    decreases |steps|
  {
    if steps != [] {
      StepSound(sys, steps[0]);
      StepErrorsWind(sys, steps[0]);
      StepGreeted(sys, steps[0]);
      RunWinds(Apply(sys, steps[0]), steps[1..]);
    }
  }

  /** Every connected session's output starts with CONNECTED, which never comes again. */
  lemma OneConnected(sys: System, sid: SessionId)
    requires Reachable(sys) && sid in sys.sessions
    ensures Greeted(sys.sessions[sid].out)
  {
    var steps :| IsRun(INITIAL, steps) && After(INITIAL, steps) == sys;
    RunWinds(INITIAL, steps);
  }

  /** Once a session has written an ERROR frame, it is dead or a Close is on its channel. */
  lemma ErrorLeadsToClose(sys: System, sid: SessionId)
    requires Reachable(sys) && Live(sys, sid) && exists output <- sys.sessions[sid].out :: IsError(output)
    ensures exists k :: Winding(sys.sessions[sid], k)
  {
    var steps :| IsRun(INITIAL, steps) && After(INITIAL, steps) == sys;
    RunWinds(INITIAL, steps);
    assert ErrorsWind(sys.sessions[sid]);
  }

  // ---------- the bound ----------

  function AllMessages(out: seq<Output>): seq<ServerFrame> {
    if out == [] then []
    else
      var last := out[|out| - 1];
      AllMessages(out[..|out| - 1]) + if last.Frame? && last.frame.Message? then [last.frame] else []
  }

  /** The MESSAGE frames for the ServerMessage events among the events. */
  function AllDeliveries(events: seq<ClientEvent>): seq<ServerFrame> {
    if events == [] then []
    else
      var last := events[|events| - 1];
      AllDeliveries(events[..|events| - 1]) + if last.ServerMessage? then [MessageFrame(last.subscription, last.message)] else []
  }

  /** How many events of its own channel the session handles in the run. */
  function Served(steps: seq<Step>, sid: SessionId): nat {
    if steps == [] then 0 else (if steps[0] == FromServer(sid) then 1 else 0) + Served(steps[1..], sid)
  }

  lemma AllMessagesPush(out: seq<Output>, output: Output)
    ensures AllMessages(out + [output]) == AllMessages(out) + if output.Frame? && output.frame.Message? then [output.frame] else []
  {
    assert (out + [output])[..|out|] == out;
  }

  lemma {:induction false} DeliveriesConcat(left: seq<ClientEvent>, right: seq<ClientEvent>)
    ensures AllDeliveries(left + right) == AllDeliveries(left) + AllDeliveries(right)
  {
    if right == [] {
      assert left + right == left;
    } else {
      var init, last := right[..|right| - 1], right[|right| - 1];
      assert (left + right)[..|left + right| - 1] == left + init;
      DeliveriesConcat(left, init);
    }
  }

  /** Only a ServerMessage makes a MESSAGE frame. */
  lemma MessagesComeFrom(active: ActiveTable, out: seq<Output>, event: ClientEvent)
    ensures AllMessages(Written(out, React(active, event))) == AllMessages(out) + AllDeliveries([event])
  {
    var reaction := React(active, event);
    if reaction.output.Some? {
      AllMessagesPush(out, reaction.output.value);
    }
    if event.ClientFrame? && event.frame.Ok? {
      assert reaction == ReactToFrame(active, event.frame.value).(resetsClientTimer := true);
    }
    assert [event][..0] == [];
  }

  /** What has become of a winding session after some steps: at most what was queued ahead of the Close has been written. */
  ghost predicate WoundTo(session: Session, session': Session, k: nat, served: nat) {
    WoundOn(session.inbox, session'.inbox, k, served) && WoundTold(session.out, session'.out, session.inbox, served)
  }

  ghost predicate WoundOn(inbox: Chan<ClientEvent>, inbox': Chan<ClientEvent>, k: nat, served: nat) {
    && inbox'.received == inbox.received + served <= k + 1
    && inbox.sent <= inbox'.sent && k < |inbox.sent|
    && (inbox'.open ==> inbox'.received <= k)
  }

  ghost predicate WoundTold(out: seq<Output>, out': seq<Output>, inbox: Chan<ClientEvent>, served: nat) {
    && inbox.received + served <= |inbox.sent|
    && AllMessages(out') == AllMessages(out) + AllDeliveries(inbox.sent[inbox.received..inbox.received + served])
  }

  lemma SettleInbox(session: Session, reaction: Reaction)
    ensures var settled := Settle(session, reaction);
      && settled.inbox.received == session.inbox.received
      && session.inbox.sent <= settled.inbox.sent
      && (settled.inbox.open ==> session.inbox.open && reaction.state.Alive?)
      && settled.out == Written(session.out, reaction)
  {
    assert session.out + [] == session.out;
  }

  lemma ToldOne(out: seq<Output>, out': seq<Output>, inbox: Chan<ClientEvent>)
    requires inbox.received < |inbox.sent|
    requires AllMessages(out') == AllMessages(out) + AllDeliveries([inbox.sent[inbox.received]])
    ensures WoundTold(out, out', inbox, 1)
  {
    assert inbox.sent[inbox.received..inbox.received + 1] == [inbox.sent[inbox.received]];
  }

  lemma ToldNothing(out: seq<Output>, out': seq<Output>, inbox: Chan<ClientEvent>)
    requires inbox.received <= |inbox.sent| && AllMessages(out') == AllMessages(out)
    ensures WoundTold(out, out', inbox, 0)
  {
    assert inbox.sent[inbox.received..inbox.received] == [];
    assert AllDeliveries([]) == [] && AllMessages(out) + [] == AllMessages(out);
  }

  lemma WindsServed(session: Session, reaction: Reaction, k: nat, settled: Session)
    requires session.inbox.Valid() && Winding(session, k)
    requires settled == Settle(session.(inbox := session.inbox.Pop()), reaction)
    requires session.inbox.sent[session.inbox.received].Close? ==> reaction.state.Dead?
    ensures WoundOn(session.inbox, settled.inbox, k, 1) && settled.out == Written(session.out, reaction)
  {
    SettleInbox(session.(inbox := session.inbox.Pop()), reaction);
  }

  lemma WindsUnserved(session: Session, reaction: Reaction, k: nat, settled: Session)
    requires session.inbox.Valid() && Winding(session, k) && settled == Settle(session, reaction)
    ensures WoundOn(session.inbox, settled.inbox, k, 0) && settled.out == Written(session.out, reaction)
  {
    SettleInbox(session, reaction);
  }

  /** The session after an event of its own channel, or of another stream. */
  lemma OwnWindsOne(session: Session, own: bool, reaction: Reaction, k: nat, settled: Session, written: seq<Output>)
    requires session.inbox.Valid() && Winding(session, k)
    requires settled == Settle(if own then session.(inbox := session.inbox.Pop()) else session, reaction)
    requires written == Written(session.out, reaction)
    requires AllMessages(written) == AllMessages(session.out)
             + if own then AllDeliveries([session.inbox.sent[session.inbox.received]]) else []
    requires own && session.inbox.sent[session.inbox.received].Close? ==> reaction.state.Dead?
    ensures WoundTo(session, settled, k, if own then 1 else 0)
  {
    if own {
      WindsServed(session, reaction, k, settled);
      ToldOne(session.out, written, session.inbox);
    } else {
      WindsUnserved(session, reaction, k, settled);
      ToldNothing(session.out, written, session.inbox);
    }
  }

  lemma CrashWinds(session: Session, settled: Session, k: nat, served: nat)
    requires WoundTo(session, settled, k, served)
    ensures WoundTo(session, CrashSession(settled), k, served)
  {
  }

  lemma ExternalWritesNoMessage(active: ActiveTable, out: seq<Output>, event: ClientEvent)
    requires External(event)
    ensures AllMessages(Written(out, React(active, event))) == AllMessages(out)
  {
    MessagesComeFrom(active, out, event);
    assert [event][..0] == [];
  }

  lemma InboxValid(sys: System, sid: SessionId)
    requires Sound(sys) && sid in sys.sessions
    ensures sys.sessions[sid].inbox.Valid()
  {
    assert SessionKnown(sys.dests, sid, sys.sessions[sid]);
  }

  lemma HandledWinds(session: Session, step: Step, k: nat)
    requires session.inbox.Valid() && session.inbox.open && Winding(session, k)
    requires step.FromServer? || (step.FromClient? && External(step.event))
    requires step.FromServer? ==> session.inbox.received < |session.inbox.sent|
    ensures var settled := Settle(Opening(session, step), React(session.active, EventOf(session, step)));
      var served := if step.FromServer? then 1 else 0;
      WoundTo(session, settled, k, served) && WoundTo(session, CrashSession(settled), k, served)
  {
    var event := EventOf(session, step);
    CloseKills(session.active, event);
    MessagesComeFrom(session.active, session.out, event);
    if step.FromClient? {
      ExternalWritesNoMessage(session.active, session.out, event);
    }
    var settled := Settle(Opening(session, step), React(session.active, event));
    OwnWindsOne(session, step.FromServer?, React(session.active, event), k, settled, Written(session.out, React(session.active, event)));
    CrashWinds(session, settled, k, if step.FromServer? then 1 else 0);
  }

  lemma WindsIdly(session: Session, session': Session, k: nat)
    requires session.inbox.Valid() && session.inbox.open && Winding(session, k) && Bystander(session, session')
    ensures WoundTo(session, session', k, 0)
  {
    ToldNothing(session.out, session'.out, session.inbox);
  }

  lemma StepWinds(sys: System, step: Step, sid: SessionId, k: nat)
    requires Sound(sys) && Live(sys, sid) && Winding(sys.sessions[sid], k) && Enabled(sys, step)
    ensures sid in Apply(sys, step).sessions
    ensures WoundTo(sys.sessions[sid], Apply(sys, step).sessions[sid], k, if step == FromServer(sid) then 1 else 0)
  {
    var session := sys.sessions[sid];
    InboxValid(sys, sid);
    if OwnStep(step, sid) {
      OwnStepEffect(sys, step, sid);
      HandledWinds(session, step, k);
    } else {
      OtherStepEffect(sys, step, sid);
      WindsIdly(session, Apply(sys, step).sessions[sid], k);
    }
  }

  lemma WoundConcat(s0: Session, s1: Session, s2: Session, k: nat, first: nat, rest: nat)
    requires WoundTo(s0, s1, k, first) && WoundTo(s1, s2, k, rest)
    ensures WoundTo(s0, s2, k, first + rest)
  {
    WoundOnConcat(s0.inbox, s1.inbox, s2.inbox, k, first, rest);
    ToldConcat(s0.out, s1.out, s2.out, s0.inbox, s1.inbox, first, rest);
  }

  lemma WoundOnConcat(i0: Chan<ClientEvent>, i1: Chan<ClientEvent>, i2: Chan<ClientEvent>, k: nat, first: nat, rest: nat)
    requires WoundOn(i0, i1, k, first) && WoundOn(i1, i2, k, rest)
    ensures WoundOn(i0, i2, k, first + rest)
  {
  }

  lemma ToldConcat(o0: seq<Output>, o1: seq<Output>, o2: seq<Output>, i0: Chan<ClientEvent>, i1: Chan<ClientEvent>, first: nat, rest: nat)
    requires WoundTold(o0, o1, i0, first) && WoundTold(o1, o2, i1, rest)
    requires i0.sent <= i1.sent && i1.received == i0.received + first && i1.received + rest <= |i0.sent|
    ensures WoundTold(o0, o2, i0, first + rest)
  {
    var a, b, c := i0.received, i1.received, i1.received + rest;
    Slices(i0.sent, i1.sent, a, b, c);
    Regroup(AllMessages(o0), AllDeliveries(i0.sent[a..b]), AllDeliveries(i1.sent[b..c]));
  }

  lemma Slices(sent: seq<ClientEvent>, more: seq<ClientEvent>, a: nat, b: nat, c: nat)
    requires sent <= more && a <= b <= c <= |sent|
    ensures more[b..c] == sent[b..c]
    ensures AllDeliveries(sent[a..c]) == AllDeliveries(sent[a..b]) + AllDeliveries(more[b..c])
  {
    assert more[b..c] == sent[b..c];
    assert sent[a..c] == sent[a..b] + sent[b..c];
    DeliveriesConcat(sent[a..b], sent[b..c]);
  }

  lemma {:induction false} DeadServesNothing(sys: System, sid: SessionId, steps: seq<Step>)
    requires sid in sys.sessions && !Live(sys, sid) && IsRun(sys, steps)
    ensures Served(steps, sid) == 0
    decreases |steps|
  {
    if steps != [] {
      OtherStepEffect(sys, steps[0], sid);
      DeadServesNothing(Apply(sys, steps[0]), sid, steps[1..]);
    }
  }

  lemma StillWinding(session: Session, session': Session, k: nat, served: nat)
    requires Winding(session, k) && WoundTo(session, session', k, served) && session'.inbox.open
    ensures Winding(session', k)
  {
  }

  /** The step case: what one step does, and that the session goes on winding down if it lives. */
  lemma FirstWinds(sys: System, step: Step, sid: SessionId, k: nat)
    requires Sound(sys) && Live(sys, sid) && Winding(sys.sessions[sid], k) && Enabled(sys, step)
    ensures sid in Apply(sys, step).sessions
    ensures WoundTo(sys.sessions[sid], Apply(sys, step).sessions[sid], k, if step == FromServer(sid) then 1 else 0)
    ensures Live(Apply(sys, step), sid) ==> Winding(Apply(sys, step).sessions[sid], k)
  {
    StepWinds(sys, step, sid, k);
    if Live(Apply(sys, step), sid) {
      StillWinding(sys.sessions[sid], Apply(sys, step).sessions[sid], k, if step == FromServer(sid) then 1 else 0);
    }
  }

  lemma DeadRest(session: Session, sys: System, sid: SessionId, k: nat, first: nat, rest: seq<Step>)
    requires sid in sys.sessions && !Live(sys, sid) && IsRun(sys, rest) && WoundTo(session, sys.sessions[sid], k, first)
    ensures sid in After(sys, rest).sessions && WoundTo(session, After(sys, rest).sessions[sid], k, first + Served(rest, sid))
  {
    DeadForever(sys, sid, rest);
    DeadServesNothing(sys, sid, rest);
  }

  lemma NothingWinds(sys: System, sid: SessionId, k: nat)
    requires Sound(sys) && Live(sys, sid) && Winding(sys.sessions[sid], k)
    ensures WoundTo(sys.sessions[sid], sys.sessions[sid], k, 0)
  {
    InboxValid(sys, sid);
    ToldNothing(sys.sessions[sid].out, sys.sessions[sid].out, sys.sessions[sid].inbox);
  }

  /**
   Bounded wind-down, over every run: with a Close at index `k` of its channel, a session
   can handle no more of its channel than up to that Close; it writes exactly the MESSAGE
   frames for what is queued ahead of it, as far as it gets; and it lives only as long as
   it has not got there.
   */
  lemma {:induction false} WindsDown(sys: System, sid: SessionId, k: nat, steps: seq<Step>)
    requires Sound(sys) && Live(sys, sid) && Winding(sys.sessions[sid], k) && IsRun(sys, steps)
    ensures sid in After(sys, steps).sessions
    ensures WoundTo(sys.sessions[sid], After(sys, steps).sessions[sid], k, Served(steps, sid))
    decreases |steps|
  {
    if steps == [] {
      NothingWinds(sys, sid, k);
    } else {
      var sys', rest, first := Apply(sys, steps[0]), steps[1..], if steps[0] == FromServer(sid) then 1 else 0;
      FirstWinds(sys, steps[0], sid, k);
      if Live(sys', sid) {
        StepSound(sys, steps[0]);
        WindsDown(sys', sid, k, rest);
        WoundConcat(sys.sessions[sid], sys'.sessions[sid], After(sys', rest).sessions[sid], k, first, Served(rest, sid));
      } else {
        DeadRest(sys.sessions[sid], sys', sid, k, first, rest);
      }
    }
  }

  /** A run that serves the session's channel often enough after an ERROR sees it dead. */
  lemma ServedToDeath(sys: System, sid: SessionId, k: nat, steps: seq<Step>)
    requires Reachable(sys) && Live(sys, sid) && Winding(sys.sessions[sid], k) && IsRun(sys, steps)
    requires Served(steps, sid) > k - sys.sessions[sid].inbox.received
    ensures !Live(After(sys, steps), sid)
  {
    ReachableSound(sys);
    WindsDown(sys, sid, k, steps);
  }
}
