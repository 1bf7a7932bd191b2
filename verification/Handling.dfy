/**
 The session's half of the transition system does to queues, tasks and the session itself
 what class ClientSession is proved to do, and its subscribe tasks what class
 AsyncDestinations does. Module Broadcast has the backend's half.
 */
module Handling {
  import opened Types
  import opened Channels
  import opened Actions
  import opened Reactions
  import opened Calls
  import opened Protocol
  import opened Bookkeeping

  function QueuesOf(sys: System): Queues<SessionId> {
    map d <- sys.dests :: sys.dests[d].queue
  }

  /** The session itself, after an event: what it keeps, writes and queues for itself, and whether it lives on. */
  ghost predicate Settled(session: Session, session': Session, reaction: Reaction, panics: bool) {
    && session'.active == reaction.active
    && session'.crashed == (session.crashed || panics)
    && session'.inbox.received == session.inbox.received
    && (session'.inbox.open <==> session.inbox.open && reaction.state.Alive? && !panics)
    && session'.inbox.sent
       == (if reaction.sendsClose && session.inbox.open then session.inbox.sent + [ClientEvent.Close] else session.inbox.sent)
    && session'.out == session.out + if reaction.output.Some? then [reaction.output.value] else []
  }

  ghost predicate TasksSpawned(sys: System, sys': System, sid: SessionId, call: Option<Call>) {
    match call
    case Some(SubscribeTo(d, clientId)) =>
      sys'.tasks == sys.tasks[sys.spawned := SubscribeTask(sid, clientId, d)] && sys'.spawned == sys.spawned + 1
    case _ => sys'.tasks == sys.tasks && sys'.spawned == sys.spawned
  }

  lemma SubmitActs(sys: System, d: DestinationId, action: Action)
    requires d in sys.dests
    ensures QueuesOf(Put(sys, d, Submit(sys.dests[d], action))) == Submitted(QueuesOf(sys), d, action)
  {
  }

  lemma CallQueues(sys: System, sid: SessionId, call: Call)
    requires sid in sys.sessions
    ensures QueuesOf(MakeCall(sys, sid, call)) == QueuesAfter(QueuesOf(sys), Some(call), sid)
  {
    match call
    case SubscribeTo(_, _) =>
    case SendTo(d, message) =>
      if d in sys.dests {
        SubmitActs(sys, d, DestinationAction.Send(message, sid));
      }
    case UnsubscribeFrom(d, subscription) =>
      if d in sys.dests {
        SubmitActs(sys, d, DestinationAction.Unsubscribe(subscription, sid));
      }
  }

  lemma CallActs(sys: System, sid: SessionId, call: Call)
    requires sid in sys.sessions
    ensures var sys' := MakeCall(sys, sid, call);
      && QueuesOf(sys') == QueuesAfter(QueuesOf(sys), Some(call), sid)
      && TasksSpawned(sys, sys', sid, Some(call))
      && sys'.sessions
         == if CallPanics(QueuesOf(sys), Some(call)) then sys.sessions[sid := CrashSession(sys.sessions[sid])] else sys.sessions
  {
    CallQueues(sys, sid, call);
  }

  /** Its last result cuts nothing off: a session that dies writes nothing and calls nobody. */
  lemma DyingReaction(active: ActiveTable, event: ClientEvent)
    ensures var reaction := React(active, event);
      reaction.state.Dead? ==> reaction.output.None? && reaction.call.None? && !reaction.sendsClose
    ensures var reaction := React(active, event); reaction.call.Some? ==> reaction.output.None? && !reaction.sendsClose
  {
    if event.ClientFrame? && event.frame.Ok? {
      DyingFrame(active, event.frame.value);
    }
  }

  lemma DyingFrame(active: ActiveTable, frame: ClientFrame)
    ensures var reaction := ReactToFrame(active, frame);
      && (reaction.state.Dead? ==> reaction.output.None? && reaction.call.None? && !reaction.sendsClose)
      && (reaction.call.Some? ==> reaction.output.None? && !reaction.sendsClose)
  {
  }

  lemma SettleActs(session: Session, event: ClientEvent)
    ensures var reaction := React(session.active, event);
      && Settled(session, Settle(session, reaction), reaction, false)
      && (reaction.call.Some? ==> Settled(session, CrashSession(Settle(session, reaction)), reaction, true))
  {
    DyingReaction(session.active, event);
  }

  /**
   Handling an event, whichever stream it came from, is what `ClientSession.HandleEvent`
   does to the session, the queues and the tasks. The transition system has no timers: the
   panic that `HandleEvent` has besides, at a server timer that takes no commands, is no
   step of it, because it cannot happen (`LooseTime.ResetNeverFails`).
   */
  lemma HandleActs(sys: System, sid: SessionId, session: Session, event: ClientEvent)
    requires sid in sys.sessions
    ensures var reaction, sys' := React(session.active, event), Handle(sys, sid, session, event);
      var panics := CallPanics(QueuesOf(sys), reaction.call);
      && QueuesOf(sys') == QueuesAfter(QueuesOf(sys), reaction.call, sid)
      && TasksSpawned(sys, sys', sid, reaction.call)
      && sid in sys'.sessions && sys'.sessions == sys.sessions[sid := sys'.sessions[sid]]
      && Settled(session, sys'.sessions[sid], reaction, panics)
  {
    var reaction := React(session.active, event);
    var settled := sys.(sessions := sys.sessions[sid := Settle(session, reaction)]);
    SettleActs(session, event);
    assert QueuesOf(settled) == QueuesOf(sys);
    if reaction.call.Some? {
      CallActs(settled, sid, reaction.call.value);
    }
  }

  /** A subscribe task that runs is what `AsyncDestinations.RunTask` does once the destination is there. */
  lemma TaskActs(sys: System, n: nat)
    requires Enabled(sys, RunTask(n))
    ensures var task, sys' := sys.tasks[n], RunSubscribeTask(sys, n);
      var queues := QueuesOf(sys);
      && QueuesOf(sys') == Submitted(queues, task.destination, DestinationAction.Subscribe(Some(task.clientId), task.session))
      && sys'.tasks == sys.tasks - {n}
      && sys'.sessions
         == (if queues[task.destination].open then sys.sessions
             else Notify(sys, task.session, Subscribed(task.destination, task.clientId, Err("Subscribe failed"))).sessions)
  {
    var task := sys.tasks[n];
    RunTaskShape(sys, n);
    SubmitActs(sys, task.destination, DestinationAction.Subscribe(Some(task.clientId), task.session));
  }

  /** And the creation of a destination gives it an empty queue and touches no other. */
  lemma CreationActs(sys: System, d: DestinationId)
    requires Enabled(sys, CreateDestination(d))
    ensures QueuesOf(Apply(sys, CreateDestination(d))) == Provided(QueuesOf(sys), d)
  {
  }
}
