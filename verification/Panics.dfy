/**
 When the callback protocol panics: exactly when a callback finds no subscription to name.
 The causes of that are known, and three rules that can be checked step by step avoid them.
 */
module Panics {
  import opened Types
  import opened Channels
  import opened Actions
  import opened Reactions
  import opened Protocol
  import opened Bookkeeping
  import opened Accounts
  import opened WindDown

  // ---------- exact causes ----------

  /**
   A backend that takes an Unsubscribe panics if and only if it has taken one for the same
   subscription before, or a delivery to the subscription has failed, after which it was pruned.
   */
  lemma BackendPanicsExactly(sys: System, d: DestinationId)
    requires Reachable(sys) && Enabled(sys, TakeUnsubscribe(d))
    ensures var dest := sys.dests[d];
      var u := NextAction(dest).value.subId;
      Apply(sys, TakeUnsubscribe(d)).dests[d].crashed <==> Requested(dest, u) || u in dest.bounced
  {
    ReachableSound(sys);
    var dest := sys.dests[d];
    var action := NextAction(dest).value;
    assert DestKnown(sys, dest) && ActionKnown(sys, dest.issued, action);
    assert IssueKnown(sys, action.subId, dest.issued[action.subId], |dest.log|);
    assert action.subId in dest.table || Departed(dest, action.subId);
  }

  /** Deliveries fail only to dead sessions, so as long as the session lives only a repeated Unsubscribe panics. */
  lemma LiveSessionPanicsExactly(sys: System, d: DestinationId)
    requires Reachable(sys) && Enabled(sys, TakeUnsubscribe(d)) && Live(sys, NextAction(sys.dests[d]).value.subscriber)
    ensures Apply(sys, TakeUnsubscribe(d)).dests[d].crashed
            <==> Requested(sys.dests[d], NextAction(sys.dests[d]).value.subId)
  {
    BackendPanicsExactly(sys, d);
    ReachableSound(sys);
    assert DestKnown(sys, sys.dests[d]);
    assert ActionKnown(sys, sys.dests[d].issued, NextAction(sys.dests[d]).value);
  }

  // ---------- backends stop for a reason ----------

  /** A backend that has stopped took a Close last, or an Unsubscribe of a subscription that was gone. */
  ghost predicate StopExplained(dest: Dest) {
    && (dest.queue.open ==> !dest.crashed)
    && (!dest.queue.open ==>
          && 0 < dest.queue.received <= |dest.queue.sent|
          && var last := dest.queue.sent[dest.queue.received - 1];
             if dest.crashed then last.Unsubscribe? && Departed(dest, last.subId) else last.Close?)
  }

  ghost predicate AllStopsExplained(sys: System) {
    forall d <- sys.dests :: StopExplained(sys.dests[d])
  }

  lemma StopPut(sys: System, sys': System, d: DestinationId)
    requires AllStopsExplained(sys) && d in sys'.dests && sys'.dests == sys.dests[d := sys'.dests[d]]
    requires StopExplained(sys'.dests[d])
    ensures AllStopsExplained(sys')
  {
  }

  lemma SubmitStop(sys: System, d: DestinationId, action: Action)
    requires AllStopsExplained(sys) && d in sys.dests
    ensures AllStopsExplained(Put(sys, d, Submit(sys.dests[d], action)))
  {
    StopPut(sys, Put(sys, d, Submit(sys.dests[d], action)), d);
  }

  lemma CallStop(sys: System, sid: SessionId, call: Call)
    requires AllStopsExplained(sys) && sid in sys.sessions
    ensures AllStopsExplained(MakeCall(sys, sid, call))
  {
    match call
    case SubscribeTo(_, _) =>
    case SendTo(d, message) =>
      if d in sys.dests {
        SubmitStop(sys, d, DestinationAction.Send(message, sid));
      }
    case UnsubscribeFrom(d, u) =>
      if d in sys.dests {
        SubmitStop(sys, d, DestinationAction.Unsubscribe(u, sid));
      }
  }

  lemma RespondStop(sys: System, sid: SessionId, session: Session, reaction: Reaction)
    requires AllStopsExplained(sys) && sid in sys.sessions
    ensures AllStopsExplained(Respond(sys, sid, session, reaction))
  {
    if reaction.call.Some? {
      CallStop(sys.(sessions := sys.sessions[sid := Settle(session, reaction)]), sid, reaction.call.value);
    }
  }

  lemma HandleStop(sys: System, sid: SessionId, session: Session, event: ClientEvent)
    requires AllStopsExplained(sys) && sid in sys.sessions
    ensures AllStopsExplained(Handle(sys, sid, session, event))
  {
    RespondStop(sys, sid, session, React(session.active, event));
  }

  lemma RunTaskStop(sys: System, n: nat)
    requires AllStopsExplained(sys) && n in sys.tasks && sys.tasks[n].destination in sys.dests
    ensures AllStopsExplained(RunSubscribeTask(sys, n))
  {
    StopPut(sys, RunSubscribeTask(sys, n), sys.tasks[n].destination);
  }

  lemma AddStop(sys: System, d: DestinationId, u: SubscriptionId)
    requires Sound(sys) && AllStopsExplained(sys) && Takes(sys, d) && NextAction(sys.dests[d]).value.Subscribe?
    ensures AllStopsExplained(AddSubscription(sys, d, u))
  {
    assert DestKnown(sys, sys.dests[d]) && ActionKnown(sys, sys.dests[d].issued, NextAction(sys.dests[d]).value);
    StopPut(sys, AddSubscription(sys, d, u), d);
  }

  lemma RemoveStop(sys: System, d: DestinationId, sys': System)
    requires Sound(sys) && AllStopsExplained(sys) && Takes(sys, d) && NextAction(sys.dests[d]).value.Unsubscribe?
    requires sys' == RemoveSubscription(sys, d)
    ensures AllStopsExplained(sys')
  {
    assert DestKnown(sys, sys.dests[d]);
    var dest, action := sys.dests[d], NextAction(sys.dests[d]).value;
    assert ActionKnown(sys, dest.issued, action);
    assert IssueKnown(sys, action.subId, dest.issued[action.subId], |dest.log|);
    assert action.subId in dest.table || Departed(dest, action.subId);
    StopPut(sys, sys', d);
  }

  lemma DeliverStop(sys: System, d: DestinationId, u: SubscriptionId)
    requires Sound(sys) && AllStopsExplained(sys) && Enabled(sys, Deliver(d, u))
    ensures AllStopsExplained(DeliverOne(sys, d, u))
  {
    NamedInFanOut(sys, d, u);
    var sys' := DeliverOne(sys, d, u);
    DeliverShape(sys, d, u, sys.dests[d], sys'.dests[d]);
    StopPut(sys, sys', d);
  }

  lemma StartStop(sys: System, d: DestinationId, messageId: MessageId)
    requires AllStopsExplained(sys) && Enabled(sys, TakeSend(d, messageId))
    ensures AllStopsExplained(StartSend(sys, d, messageId))
  {
    StopPut(sys, StartSend(sys, d, messageId), d);
  }

  lemma CloseStop(sys: System, d: DestinationId)
    requires AllStopsExplained(sys) && Enabled(sys, TakeClose(d))
    ensures AllStopsExplained(Apply(sys, TakeClose(d)))
  {
    StopPut(sys, Apply(sys, TakeClose(d)), d);
  }

  lemma FinishStop(sys: System, d: DestinationId)
    requires AllStopsExplained(sys) && Sound(sys) && Enabled(sys, FinishSend(d))
    ensures AllStopsExplained(EndSend(sys, d))
  {
    assert DestKnown(sys, sys.dests[d]);
    StopPut(sys, EndSend(sys, d), d);
  }

  lemma EndingStop(sys: System, step: Step)
    requires Sound(sys) && AllStopsExplained(sys) && Enabled(sys, step)
    requires step.TakeClose? || step.Deliver? || step.FinishSend?
    ensures AllStopsExplained(Apply(sys, step))
  {
    match step
    case TakeClose(d) => CloseStop(sys, d);
    case Deliver(d, u) => DeliverStop(sys, d, u);
    case FinishSend(d) => FinishStop(sys, d);
  }

  lemma BackendStop(sys: System, step: Step)
    requires Sound(sys) && AllStopsExplained(sys) && Enabled(sys, step)
    requires step.TakeSubscribe? || step.TakeUnsubscribe? || step.TakeSend? || step.TakeClose? || step.Deliver? || step.FinishSend?
    ensures AllStopsExplained(Apply(sys, step))
  {
    match step
    case TakeSubscribe(d, u) => AddStop(sys, d, u);
    case TakeUnsubscribe(d) => RemoveStop(sys, d, Apply(sys, step));
    case TakeSend(d, messageId) => StartStop(sys, d, messageId);
    case _ => EndingStop(sys, step);
  }

  lemma StepStop(sys: System, step: Step)
    requires Sound(sys) && AllStopsExplained(sys) && Enabled(sys, step)
    ensures AllStopsExplained(Apply(sys, step))
  {
    match step
    case Accept(_, _) =>
    case FromClient(sid, event) => HandleStop(sys, sid, sys.sessions[sid], event);
    case FromServer(sid) =>
      var session := sys.sessions[sid];
      HandleStop(sys, sid, session.(inbox := session.inbox.Pop()), session.inbox.sent[session.inbox.received]);
    case Drop(_) =>
    case MissHeartbeat(_) =>
    case CreateDestination(d) => StopPut(sys, Put(sys, d, NewDest()), d);
    case RunTask(n) => RunTaskStop(sys, n);
    case CloseDestination(d) => StopPut(sys, Apply(sys, step), d);
    case _ => BackendStop(sys, step);
  }

  lemma {:induction false} RunStops(sys: System, steps: seq<Step>)
    requires Sound(sys) && AllStopsExplained(sys) && IsRun(sys, steps)
    ensures AllStopsExplained(After(sys, steps))
    decreases |steps|
  {
    if steps != [] {
      StepSound(sys, steps[0]);
      StepStop(sys, steps[0]);
      RunStops(Apply(sys, steps[0]), steps[1..]);
    }
  }

  /** Over whole runs: no backend ever stops but for a Close it took, or an Unsubscribe of a subscription that was gone. */
  lemma StopsHaveCauses(sys: System, d: DestinationId)
    requires Reachable(sys) && d in sys.dests
    ensures StopExplained(sys.dests[d])
  {
    var steps :| IsRun(INITIAL, steps) && After(INITIAL, steps) == sys;
    RunStops(INITIAL, steps);
  }

  /** The session handles an UNSUBSCRIBE for a subscription whose backend has stopped. */
  predicate UnsubscribesFromStopped(sys: System, sid: SessionId, step: Step)
    requires sid in sys.sessions
  {
    && step.FromClient? && step.session == sid
    && step.event.ClientFrame? && step.event.frame.Ok? && step.event.frame.value.Unsubscribe?
    && var active, id := sys.sessions[sid].active, step.event.frame.value.id;
       id in active && active[id].0 in sys.dests && !sys.dests[active[id].0].queue.open
  }

  /**
   A session panics if and only if it handles an UNSUBSCRIBE for a subscription whose
   backend has stopped; no other step of its own or of anybody else's panics it. (The other
   `expect` of a session is shown to hold in module LooseTime.)
   */
  lemma SessionPanicsExactly(sys: System, sid: SessionId, step: Step)
    requires Reachable(sys) && Enabled(sys, step) && sid in sys.sessions
    ensures sid in Apply(sys, step).sessions
    ensures Apply(sys, step).sessions[sid].crashed
            <==> sys.sessions[sid].crashed || UnsubscribesFromStopped(sys, sid, step)
  {
    if OwnStep(step, sid) {
      var session := sys.sessions[sid];
      var event := EventOf(session, step);
      RespondPanics(sys, sid, Opening(session, step), React(session.active, event));
      if step.FromServer? {
        ReachableSound(sys);
        assert SessionKnown(sys.dests, sid, session);
        OwnEventsCallNobody(session.active, event);
      } else {
        UnsubscribingReaction(session.active, event);
      }
    } else {
      OtherStepEffect(sys, step, sid);
    }
  }

  /** And nobody panics on arrival. */
  lemma NewcomersAreWell(sys: System, step: Step, sid: SessionId)
    requires Enabled(sys, step) && sid !in sys.sessions && sid in Apply(sys, step).sessions
    ensures step.Accept? && !Apply(sys, step).sessions[sid].crashed
  {
    if !step.Accept? {
      KeysKept(sys, step);
    }
  }

  lemma UnsubscribingReaction(active: ActiveTable, event: ClientEvent)
    ensures var call := React(active, event).call;
      && (call.Some? && call.value.UnsubscribeFrom? <==>
            event.ClientFrame? && event.frame.Ok? && event.frame.value.Unsubscribe? && event.frame.value.id in active)
      && (call.Some? && call.value.UnsubscribeFrom? ==> call.value.destination == active[event.frame.value.id].0)
  {
  }

  lemma RespondPanics(sys: System, sid: SessionId, session: Session, reaction: Reaction)
    requires sid in sys.sessions
    ensures sid in Respond(sys, sid, session, reaction).sessions
    ensures Respond(sys, sid, session, reaction).sessions[sid].crashed
            <==> session.crashed
                 || (reaction.call.Some? && reaction.call.value.UnsubscribeFrom? && reaction.call.value.destination in sys.dests
                     && !sys.dests[reaction.call.value.destination].queue.open)
  {
  }

  // ---------- panic freedom ----------

  /** The client asks to unsubscribe each subscription at most once. */
  ghost predicate AsksOnce(sys: System, step: Step) {
    step.FromClient? && step.event.ClientFrame? && step.event.frame.Ok? && step.event.frame.value.Unsubscribe?
    && Live(sys, step.session) && step.event.frame.value.id in sys.sessions[step.session].active ==>
      var (d, u) := sys.sessions[step.session].active[step.event.frame.value.id];
      d in sys.dests ==> forall action <- sys.dests[d].queue.sent :: action.Unsubscribe? ==> action.subId != u
  }

  /** No backend has yet to take an Unsubscribe of the session. */
  ghost predicate NothingInFlight(sys: System, sid: SessionId) {
    forall d <- sys.dests :: NothingInFlightAt(sys.dests[d], sid)
  }

  ghost predicate NothingInFlightAt(dest: Dest, sid: SessionId) {
    forall i :: dest.queue.received <= i < |dest.queue.sent| && dest.queue.sent[i].Unsubscribe? ==>
                dest.queue.sent[i].subscriber != sid
  }

  /** A session ends, by whatever step, only when no Unsubscribe of its own is in flight. */
  ghost predicate EndsClean(sys: System, step: Step)
    requires Enabled(sys, step)
  {
    forall sid <- sys.sessions :: Live(sys, sid) && !Live(Apply(sys, step), sid) ==> NothingInFlight(sys, sid)
  }

  ghost predicate Careful(sys: System, step: Step)
    requires Enabled(sys, step)
  {
    AsksOnce(sys, step) && EndsClean(sys, step) && !step.CloseDestination?
  }

  ghost predicate IsCarefulRun(sys: System, steps: seq<Step>)
    decreases |steps|
  {
    steps == []
    || (Enabled(sys, steps[0]) && Careful(sys, steps[0]) && IsCarefulRun(Apply(sys, steps[0]), steps[1..]))
  }

  ghost predicate DestSafe(sys: System, dest: Dest) {
    && dest.queue.open && !dest.crashed
    && (forall action <- dest.queue.sent :: !action.Close?)
    && (forall i, j :: 0 <= i < j < |dest.queue.sent| && dest.queue.sent[i].Unsubscribe? && dest.queue.sent[j].Unsubscribe? ==>
          dest.queue.sent[i].subId != dest.queue.sent[j].subId)
    && (forall i :: dest.queue.received <= i < |dest.queue.sent| && dest.queue.sent[i].Unsubscribe? ==>
          Live(sys, dest.queue.sent[i].subscriber))
  }

  ghost predicate Safe(sys: System) {
    && (forall sid <- sys.sessions :: !sys.sessions[sid].crashed)
    && (forall d <- sys.dests :: DestSafe(sys, sys.dests[d]))
  }

  /** A step that leaves the queues be keeps the backends safe if it ends no session with something in flight. */
  lemma SafeFrame(sys: System, sys': System)
    requires Safe(sys)
    requires forall sid <- sys'.sessions :: !sys'.sessions[sid].crashed
    requires forall sid <- sys.sessions :: sid in sys'.sessions && (Live(sys, sid) && !Live(sys', sid) ==> NothingInFlight(sys, sid))
    requires forall d <- sys'.dests ::
               if d in sys.dests then SafeMove(sys.dests[d], sys'.dests[d]) else sys'.dests[d] == NewDest()
    ensures Safe(sys')
  {
    forall d <- sys'.dests ensures DestSafe(sys', sys'.dests[d]) {
      if d in sys.dests {
        assert DestSafe(sys, sys.dests[d]);
        SafeDest(sys, sys', d);
      }
    }
  }

  /** At most one more action, and neither an Unsubscribe nor a Close. */
  ghost predicate SafeMove(dest: Dest, dest': Dest) {
    && dest'.queue.open == dest.queue.open && dest'.crashed == dest.crashed && dest.queue.received <= dest'.queue.received
    && (dest'.queue.sent == dest.queue.sent
        || exists action {:trigger dest.queue.sent + [action]} ::
             dest'.queue.sent == dest.queue.sent + [action] && !action.Unsubscribe? && !action.Close?)
  }

  lemma SafeDest(sys: System, sys': System, d: DestinationId)
    requires d in sys.dests && d in sys'.dests && DestSafe(sys, sys.dests[d]) && SafeMove(sys.dests[d], sys'.dests[d])
    requires forall sid <- sys.sessions ::
               Live(sys, sid) && !Live(sys', sid) ==> NothingInFlightAt(sys.dests[d], sid)
    ensures DestSafe(sys', sys'.dests[d])
  {
    var dest, dest' := sys.dests[d], sys'.dests[d];
    forall i | dest'.queue.received <= i < |dest'.queue.sent| && dest'.queue.sent[i].Unsubscribe?
      ensures Live(sys', dest'.queue.sent[i].subscriber)
    {
      assert i < |dest.queue.sent| && dest'.queue.sent[i] == dest.queue.sent[i];
      assert !NothingInFlightAt(dest, dest.queue.sent[i].subscriber);
    }
  }

  /** A live session's new Unsubscribe, of something nobody has asked to unsubscribe before. */
  lemma UnsubscribeSafe(sys: System, sid: SessionId, d: DestinationId, u: SubscriptionId, sys': System)
    requires Safe(sys) && Live(sys, sid) && d in sys.dests
    requires forall action <- sys.dests[d].queue.sent :: action.Unsubscribe? ==> action.subId != u
    requires sys' == MakeCall(sys, sid, UnsubscribeFrom(d, u))
    ensures Safe(sys')
  {
    assert DestSafe(sys, sys.dests[d]);
    assert sys' == Put(sys, d, Submit(sys.dests[d], DestinationAction.Unsubscribe(u, sid)));
    forall e <- sys'.dests ensures DestSafe(sys', sys'.dests[e]) {
      assert DestSafe(sys, sys.dests[e]);
      if e == d {
        PushedSafe(sys, sys.dests[d], DestinationAction.Unsubscribe(u, sid), sys'.dests[d]);
      }
    }
  }

  lemma PushedSafe(sys: System, dest: Dest, action: Action, dest': Dest)
    requires DestSafe(sys, dest) && action.Unsubscribe? && Live(sys, action.subscriber) && dest' == Submit(dest, action)
    requires forall other <- dest.queue.sent :: other.Unsubscribe? ==> other.subId != action.subId
    ensures DestSafe(sys, dest')
  {
  }

  lemma PushMoves(dest: Dest, action: Action)
    requires !action.Unsubscribe? && !action.Close?
    ensures SafeMove(dest, Submit(dest, action))
  {
    if dest.queue.open {
      assert Submit(dest, action).queue.sent == dest.queue.sent + [action];
    }
  }

  /** The session's own part of handling an event. */
  lemma SettleSafe(sys: System, sid: SessionId, session: Session, reaction: Reaction, sys': System)
    requires Safe(sys) && Live(sys, sid) && !session.crashed && session.inbox.open
    requires sys' == sys.(sessions := sys.sessions[sid := Settle(session, reaction)])
    requires reaction.state.Dead? ==> NothingInFlight(sys, sid)
    ensures Safe(sys')
  {
    SafeFrame(sys, sys');
  }

  lemma RespondSafe(sys: System, sid: SessionId, session: Session, reaction: Reaction)
    requires Safe(sys) && Live(sys, sid) && !session.crashed && session.inbox.open
    requires reaction.state.Dead? ==> NothingInFlight(sys, sid) && reaction.call.None?
    requires reaction.call.Some? && reaction.call.value.UnsubscribeFrom? && reaction.call.value.destination in sys.dests ==>
               forall action <- sys.dests[reaction.call.value.destination].queue.sent ::
                 action.Unsubscribe? ==> action.subId != reaction.call.value.subscription
    ensures Safe(Respond(sys, sid, session, reaction))
  {
    var sys' := sys.(sessions := sys.sessions[sid := Settle(session, reaction)]);
    SettleSafe(sys, sid, session, reaction, sys');
    if reaction.call.Some? {
      match reaction.call.value
      case SubscribeTo(d, id) => SafeFrame(sys', MakeCall(sys', sid, reaction.call.value));
      case SendTo(d, message) =>
        if d in sys.dests {
          PushMoves(sys'.dests[d], DestinationAction.Send(message, sid));
          SafeFrame(sys', MakeCall(sys', sid, reaction.call.value));
        }
      case UnsubscribeFrom(d, u) =>
        if d in sys.dests {
          UnsubscribeSafe(sys', sid, d, u, MakeCall(sys', sid, reaction.call.value));
        }
    }
  }

  /** What a careful step means for the reaction of the session that takes it. */
  lemma CarefulReaction(sys: System, step: Step)
    requires Enabled(sys, step) && Careful(sys, step) && (step.FromClient? || step.FromServer?)
    requires step.FromServer? ==> Internal(sys.sessions[step.session].inbox.sent[sys.sessions[step.session].inbox.received])
    ensures var sid := step.session;
      var session := sys.sessions[sid];
      var event := if step.FromClient? then step.event else session.inbox.sent[session.inbox.received];
      var reaction := React(session.active, event);
      && (reaction.state.Dead? ==> NothingInFlight(sys, sid) && reaction.call.None?)
      && (reaction.call.Some? && reaction.call.value.UnsubscribeFrom? && reaction.call.value.destination in sys.dests ==>
            forall action <- sys.dests[reaction.call.value.destination].queue.sent ::
              action.Unsubscribe? ==> action.subId != reaction.call.value.subscription)
  {
    var sid := step.session;
    var session := sys.sessions[sid];
    var event := if step.FromClient? then step.event else session.inbox.sent[session.inbox.received];
    DeadCallsNobody(session.active, event);
    if React(session.active, event).state.Dead? {
      assert !Live(Apply(sys, step), sid);
    }
    if step.FromServer? {
      OwnEventsCallNobody(session.active, event);
    } else {
      OnlyUnsubscribeFrames(session.active, event);
    }
  }

  lemma DeadCallsNobody(active: ActiveTable, event: ClientEvent)
    ensures React(active, event).state.Dead? ==> React(active, event).call.None?
  {
  }

  lemma OnlyUnsubscribeFrames(active: ActiveTable, event: ClientEvent)
    ensures var call := React(active, event).call;
      call.Some? && call.value.UnsubscribeFrom? ==>
        && event.ClientFrame? && event.frame.Ok? && event.frame.value.Unsubscribe? && event.frame.value.id in active
        && (call.value.destination, call.value.subscription) == active[event.frame.value.id]
  {
  }

  lemma NotifySafe(sys: System, sid: SessionId, event: ClientEvent)
    requires Safe(sys)
    ensures Safe(Notify(sys, sid, event))
  {
    SafeFrame(sys, Notify(sys, sid, event));
  }

  lemma PutSafe(sys: System, sys': System, d: DestinationId)
    requires Safe(sys) && d in sys.dests && d in sys'.dests && sys'.dests == sys.dests[d := sys'.dests[d]]
    requires sys'.sessions == sys.sessions && SafeMove(sys.dests[d], sys'.dests[d])
    ensures Safe(sys')
  {
    SafeFrame(sys, sys');
  }

  /** In a safe state no Unsubscribe finds its subscription gone. */
  lemma UnsubscribeFinds(sys: System, d: DestinationId)
    requires Sound(sys) && Safe(sys) && Takes(sys, d) && NextAction(sys.dests[d]).value.Unsubscribe?
    ensures ReportedId(sys.dests[d].table, NextAction(sys.dests[d]).value.subId).Some?
  {
    var dest, action := sys.dests[d], NextAction(sys.dests[d]).value;
    assert DestKnown(sys, dest) && DestSafe(sys, dest) && ActionKnown(sys, dest.issued, action);
    assert IssueKnown(sys, action.subId, dest.issued[action.subId], |dest.log|);
    assert action.subId in dest.table || Departed(dest, action.subId);
    NotRequested(sys, dest, dest.queue.received);
  }

  lemma NotRequested(sys: System, dest: Dest, at: nat)
    requires DestSafe(sys, dest) && at == dest.queue.received < |dest.queue.sent| && dest.queue.sent[at].Unsubscribe?
    ensures !Requested(dest, dest.queue.sent[at].subId)
  {
  }

  lemma TakeUnsubscribeSafe(sys: System, d: DestinationId, sys': System)
    requires Sound(sys) && Safe(sys) && Takes(sys, d) && NextAction(sys.dests[d]).value.Unsubscribe?
    requires sys' == RemoveSubscription(sys, d)
    ensures Safe(sys')
  {
    UnsubscribeFinds(sys, d);
    var dest, action := sys.dests[d], NextAction(sys.dests[d]).value;
    var dest' := Taken(dest).(table := dest.table - {action.subId}, removed := dest.removed[action.subId := |dest.log|]);
    PutSafe(sys, Put(sys, d, dest'), d);
    NotifySafe(Put(sys, d, dest'), action.subscriber,
               Unsubscribed(ReportedId(dest.table, action.subId).value, Ok(action.subId)));
  }

  lemma RunTaskSafe(sys: System, n: nat, sys': System)
    requires Safe(sys) && n in sys.tasks && sys.tasks[n].destination in sys.dests && sys' == RunSubscribeTask(sys, n)
    ensures Safe(sys')
  {
    var task := sys.tasks[n];
    assert DestSafe(sys, sys.dests[task.destination]);
    PushMoves(sys.dests[task.destination], DestinationAction.Subscribe(Some(task.clientId), task.session));
    SafeFrame(sys, sys');
  }

  lemma AddSafe(sys: System, d: DestinationId, u: SubscriptionId, sys': System)
    requires Safe(sys) && Takes(sys, d) && NextAction(sys.dests[d]).value.Subscribe?
    requires NextAction(sys.dests[d]).value.subscriberSubId.Some? && sys' == AddSubscription(sys, d, u)
    ensures Safe(sys')
  {
    SafeFrame(sys, sys');
  }

  lemma DeliverSessions(sys: System, d: DestinationId, u: SubscriptionId)
    requires d in sys.dests && sys.dests[d].fanOut.Some? && u in sys.dests[d].fanOut.value.remaining
    ensures forall sid <- DeliverOne(sys, d, u).sessions ::
              sid in sys.sessions && DeliverOne(sys, d, u).sessions[sid].crashed == sys.sessions[sid].crashed
    ensures forall sid <- sys.sessions ::
              sid in DeliverOne(sys, d, u).sessions && Live(DeliverOne(sys, d, u), sid) == Live(sys, sid)
  {
  }

  lemma DeliverSafe(sys: System, d: DestinationId, u: SubscriptionId, sys': System)
    requires Safe(sys) && d in sys.dests && sys.dests[d].fanOut.Some? && u in sys.dests[d].fanOut.value.remaining
    requires sys.dests[d].fanOut.value.remaining[u].subscriberSubId.Some? && sys' == DeliverOne(sys, d, u)
    ensures Safe(sys')
  {
    DeliverShape(sys, d, u, sys.dests[d], sys'.dests[d]);
    DeliverSessions(sys, d, u);
    SafeFrame(sys, sys');
  }

  lemma NoCloseTaken(sys: System, step: Step)
    requires Safe(sys) && Enabled(sys, step)
    ensures !step.TakeClose?
  {
    forall d <- sys.dests ensures NextAction(sys.dests[d]).Some? ==> !NextAction(sys.dests[d]).value.Close? {
      assert DestSafe(sys, sys.dests[d]);
    }
  }

  lemma HandlingSafe(sys: System, step: Step)
    requires Sound(sys) && Safe(sys) && Enabled(sys, step) && Careful(sys, step) && (step.FromClient? || step.FromServer?)
    ensures Safe(Apply(sys, step))
  {
    CarefulReaction(sys, step);
    match step
    case FromClient(sid, event) => RespondSafe(sys, sid, sys.sessions[sid], React(sys.sessions[sid].active, event));
    case FromServer(sid) =>
      var session := sys.sessions[sid];
      assert SessionKnown(sys.dests, sid, session);
      RespondSafe(sys, sid, session.(inbox := session.inbox.Pop()),
                  React(session.active, session.inbox.sent[session.inbox.received]));
  }

  lemma BackendSafe(sys: System, step: Step)
    requires Sound(sys) && Safe(sys) && Enabled(sys, step) && Careful(sys, step)
    requires step.TakeSubscribe? || step.TakeUnsubscribe? || step.TakeSend? || step.TakeClose? || step.Deliver? || step.FinishSend?
    ensures Safe(Apply(sys, step))
  {
    NoCloseTaken(sys, step);
    match step
    case TakeSubscribe(d, u) =>
      assert DestKnown(sys, sys.dests[d]) && ActionKnown(sys, sys.dests[d].issued, NextAction(sys.dests[d]).value);
      AddSafe(sys, d, u, Apply(sys, step));
    case TakeUnsubscribe(d) => TakeUnsubscribeSafe(sys, d, Apply(sys, step));
    case TakeSend(d, messageId) => PutSafe(sys, StartSend(sys, d, messageId), d);
    case TakeClose(_) =>
    case Deliver(d, u) =>
      NamedInFanOut(sys, d, u);
      DeliverSafe(sys, d, u, Apply(sys, step));
    case FinishSend(d) => PutSafe(sys, EndSend(sys, d), d);
  }

  lemma PlainSafe(sys: System, step: Step)
    requires Safe(sys) && Enabled(sys, step) && EndsClean(sys, step)
    requires step.Accept? || step.Drop? || step.CreateDestination?
    ensures Safe(Apply(sys, step))
  {
    SafeFrame(sys, Apply(sys, step));
  }

  lemma StepSafe(sys: System, step: Step)
    requires Sound(sys) && Safe(sys) && Enabled(sys, step) && Careful(sys, step)
    ensures Safe(Apply(sys, step))
  {
    match step
    case Accept(_, _) => PlainSafe(sys, step);
    case FromClient(_, _) => HandlingSafe(sys, step);
    case FromServer(_) => HandlingSafe(sys, step);
    case Drop(_) => PlainSafe(sys, step);
    case MissHeartbeat(sid) => NotifySafe(sys, sid, ClientEvent.Error("Missed heartbeat"));
    case CreateDestination(_) => PlainSafe(sys, step);
    case RunTask(n) => RunTaskSafe(sys, n, Apply(sys, step));
    case CloseDestination(_) =>
    case _ => BackendSafe(sys, step);
  }

  lemma {:induction false} CarefulSafe(sys: System, steps: seq<Step>)
    requires Sound(sys) && Safe(sys) && IsCarefulRun(sys, steps)
    ensures IsRun(sys, steps) && Safe(After(sys, steps))
    decreases |steps|
  {
    if steps != [] {
      StepSound(sys, steps[0]);
      StepSafe(sys, steps[0]);
      CarefulSafe(Apply(sys, steps[0]), steps[1..]);
    }
  }

  /**
   Panic freedom: where clients ask to unsubscribe at most once, no session ends with an
   Unsubscribe in flight and no destination is closed, no task ever panics, and no backend
   ever stops.
   */
  lemma CarefulRunsNeverPanic(steps: seq<Step>)
    requires IsCarefulRun(INITIAL, steps)
    ensures IsRun(INITIAL, steps)
    ensures forall sid <- After(INITIAL, steps).sessions :: !After(INITIAL, steps).sessions[sid].crashed
    ensures forall d <- After(INITIAL, steps).dests ::
              After(INITIAL, steps).dests[d].queue.open && !After(INITIAL, steps).dests[d].crashed
  {
    CarefulSafe(INITIAL, steps);
    forall d <- After(INITIAL, steps).dests
      ensures After(INITIAL, steps).dests[d].queue.open && !After(INITIAL, steps).dests[d].crashed
    {
      assert DestSafe(After(INITIAL, steps), After(INITIAL, steps).dests[d]);
    }
  }
}
