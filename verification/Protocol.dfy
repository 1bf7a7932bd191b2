/**
 The server as a transition system: any number of sessions and destinations, the subscribe
 tasks they spawn, and every interleaving of their steps. A step makes at most one change
 that another actor can see, so an interleaving of steps is an interleaving of the tasks.
 A failed `expect` is a step of its own that marks the actor it stops as crashed.

 Some components are history that no step reads; they are marked so.
 */
module Protocol {
  import opened Types
  import opened Channels
  import opened Actions
  import opened Reactions

  type SessionId = nat

  type Action = DestinationAction<SessionId>

  datatype Session = Session(
    inbox: Chan<ClientEvent>,  // open as long as the session serves its events
    active: ActiveTable,
    out: seq<Output>,
    crashed: bool)

  /** A backend inside its fan-out loop. */
  datatype FanOut = FanOut(message: OutboundMessage, remaining: Table<SessionId>, dead: set<SubscriptionId>)

  /** History of one subscription: what was inserted, and how many messages had been broadcast before. */
  datatype Issue = Issue(subscription: Subscription<SessionId>, from: nat)

  datatype Dest = Dest(
    queue: Chan<Action>,  // open as long as the backend runs
    table: Table<SessionId>,
    fanOut: Option<FanOut>,
    crashed: bool,
    log: seq<OutboundMessage>,              // history: the messages broadcast
    issued: map<SubscriptionId, Issue>,     // history: every subscription ever inserted
    removed: map<SubscriptionId, nat>,      // history: those unsubscribed, with the length of the log at that time
    bounced: set<SubscriptionId>,           // history: those a delivery failed for
    submitted: multiset<Action>,            // history: every action handed to the destination but Close
    refused: multiset<Action>)              // history: those whose failure callback the handle has called

  /** A spawned task that waits for its destination and then subscribes to it. */
  datatype SubscribeTask = SubscribeTask(session: SessionId, clientId: SubscriptionId, destination: DestinationId)

  /** History: how far the SUBSCRIBE frame with a given id of a given session has come. */
  datatype Stage =
    | Spawned(task: nat)
    | Queued(destination: DestinationId, index: nat)
    | Inserted(destination: DestinationId, subscription: SubscriptionId)
    | TurnedDown

  datatype System = System(
    sessions: map<SessionId, Session>,
    dests: map<DestinationId, Dest>,
    tasks: map<nat, SubscribeTask>,
    spawned: nat,
    stages: map<(SessionId, SubscriptionId), Stage>)

  const INITIAL := System(map[], map[], map[], 0, map[])

  datatype Step =
    | Accept(session: SessionId, heartbeat: HeartBeat)       // a valid CONNECT frame
    | FromClient(session: SessionId, event: ClientEvent)     // the client stream or the heartbeat timer yields
    | FromServer(session: SessionId)                         // the session's own channel yields
    | Drop(session: SessionId)                               // the transport fails
    | MissHeartbeat(session: SessionId)                      // the client heartbeat timer fires
    | CreateDestination(destination: DestinationId)          // the map's updater serves a subscribe task
    | RunTask(task: nat)                                     // a subscribe task finds its destination
    | CloseDestination(destination: DestinationId)           // an owner of the handle closes it
    | TakeSubscribe(destination: DestinationId, subscription: SubscriptionId)  // with the fresh id drawn
    | TakeUnsubscribe(destination: DestinationId)
    | TakeSend(destination: DestinationId, messageId: MessageId)               // with the fresh id drawn
    | TakeClose(destination: DestinationId)
    | Deliver(destination: DestinationId, subscription: SubscriptionId)        // one round of the fan-out loop
    | FinishSend(destination: DestinationId)                 // prune, and call back

  // ---------- sessions ----------

  /** Events that do not come through the session's channel. */
  predicate External(event: ClientEvent) {
    event.ClientFrame? || event.ClientHeartbeat? || event.Heartbeat? || event.Close?
  }

  /** Events that the server side puts on a session's channel. */
  predicate Internal(event: ClientEvent) {
    event.ServerMessage? || event.Subscribed? || event.Unsubscribed? || event.Error? || event.Close?
  }

  predicate Live(sys: System, sid: SessionId) {
    sid in sys.sessions && sys.sessions[sid].inbox.open
  }

  function Settle(session: Session, reaction: Reaction): Session {
    if reaction.state.Dead? then
      session.(active := reaction.active, inbox := session.inbox.Shut())
    else
      session.(active := reaction.active,
               inbox := if reaction.sendsClose then session.inbox.Push(ClientEvent.Close) else session.inbox,
               out := session.out + if reaction.output.Some? then [reaction.output.value] else [])
  }

  function CrashSession(session: Session): Session {
    session.(crashed := true, inbox := session.inbox.Shut())
  }

  /** A callback or a delivery puts an event on a session's channel. */
  function Notify(sys: System, sid: SessionId, event: ClientEvent): System {
    if sid in sys.sessions
    then sys.(sessions := sys.sessions[sid := sys.sessions[sid].(inbox := sys.sessions[sid].inbox.Push(event))])
    else sys
  }

  // ---------- destinations ----------

  function NewDest(): Dest {
    Dest(Empty(), map[], None, false, [], map[], map[], {}, multiset{}, multiset{})
  }

  /** What the handle does with an action; the caller sees to the failure callback. */
  function Submit(dest: Dest, action: Action): Dest {
    dest.(queue := dest.queue.Push(action),
          submitted := dest.submitted + multiset{action},
          refused := dest.refused + if dest.queue.open then multiset{} else multiset{action})
  }

  function Put(sys: System, d: DestinationId, dest: Dest): System {
    sys.(dests := sys.dests[d := dest])
  }

  /** The action that the backend will take next. */
  function NextAction(dest: Dest): Option<Action> {
    if dest.queue.open && dest.fanOut.None? && dest.queue.received < |dest.queue.sent|
    then Some(dest.queue.sent[dest.queue.received])
    else None
  }

  predicate Takes(sys: System, d: DestinationId) {
    d in sys.dests && NextAction(sys.dests[d]).Some?
  }

  function Taken(dest: Dest): Dest
    requires NextAction(dest).Some?
  {
    dest.(queue := dest.queue.Pop())
  }

  function CrashDest(dest: Dest): Dest {
    dest.(crashed := true, queue := dest.queue.Shut(), fanOut := None)
  }

  // ---------- steps ----------

  function MakeCall(sys: System, sid: SessionId, call: Call): System
    requires sid in sys.sessions
  {
    match call
    case SubscribeTo(d, clientId) =>
      sys.(tasks := sys.tasks[sys.spawned := SubscribeTask(sid, clientId, d)],
           spawned := sys.spawned + 1,
           stages := sys.stages[(sid, clientId) := Spawned(sys.spawned)])
    case SendTo(d, message) =>
      if d in sys.dests
      then Put(sys, d, Submit(sys.dests[d], DestinationAction.Send(message, sid)))
      else sys
    case UnsubscribeFrom(d, subscription) =>
      if d !in sys.dests then sys
      else
        var sys' := Put(sys, d, Submit(sys.dests[d], DestinationAction.Unsubscribe(subscription, sid)));
        if sys.dests[d].queue.open then sys'
        else sys'.(sessions := sys'.sessions[sid := CrashSession(sys'.sessions[sid])])
  }

  function Respond(sys: System, sid: SessionId, session: Session, reaction: Reaction): System
    requires sid in sys.sessions
  {
    var sys' := sys.(sessions := sys.sessions[sid := Settle(session, reaction)]);
    if reaction.call.Some? then MakeCall(sys', sid, reaction.call.value) else sys'
  }

  /** The session has taken `event` from one of its streams and handles it. */
  function Handle(sys: System, sid: SessionId, session: Session, event: ClientEvent): System
    requires sid in sys.sessions
  {
    Respond(sys, sid, session, React(session.active, event))
  }

  function RunSubscribeTask(sys: System, n: nat): System
    requires n in sys.tasks && sys.tasks[n].destination in sys.dests
  {
    var task := sys.tasks[n];
    var d, key := task.destination, (task.session, task.clientId);
    var dest := sys.dests[d];
    var sys' := Put(sys.(tasks := sys.tasks - {n}), d,
                    Submit(dest, DestinationAction.Subscribe(Some(task.clientId), task.session)));
    if dest.queue.open
    then sys'.(stages := sys.stages[key := Queued(d, |dest.queue.sent|)])
    else Notify(sys'.(stages := sys.stages[key := TurnedDown]), task.session,
                Subscribed(d, task.clientId, Err("Subscribe failed")))
  }

  function AddSubscription(sys: System, d: DestinationId, id: SubscriptionId): System
    requires Takes(sys, d) && NextAction(sys.dests[d]).value.Subscribe?
  {
    var action, dest := NextAction(sys.dests[d]).value, Taken(sys.dests[d]);
    var inserted := dest.(
      table := Insert(dest.table, id, action.subscriberSubId, action.subscriber),
      issued := dest.issued[id := Issue(Subscription(id, action.subscriberSubId, action.subscriber), |dest.log|)]);
    if action.subscriberSubId.None?
    then Put(sys, d, CrashDest(inserted))
    else
      var key := (action.subscriber, action.subscriberSubId.value);
      Notify(Put(sys, d, inserted).(stages := sys.stages[key := Inserted(d, id)]), action.subscriber,
             Subscribed(d, action.subscriberSubId.value, Ok(id)))
  }

  function RemoveSubscription(sys: System, d: DestinationId): System
    requires Takes(sys, d) && NextAction(sys.dests[d]).value.Unsubscribe?
  {
    var action, dest := NextAction(sys.dests[d]).value, Taken(sys.dests[d]);
    var reported := ReportedId(dest.table, action.subId);
    var rest := dest.(table := dest.table - {action.subId});
    if reported.None?
    then Put(sys, d, CrashDest(rest))
    else Notify(Put(sys, d, rest.(removed := rest.removed[action.subId := |rest.log|])), action.subscriber,
                Unsubscribed(reported.value, Ok(action.subId)))
  }

  function StartSend(sys: System, d: DestinationId, messageId: MessageId): System
    requires Takes(sys, d) && NextAction(sys.dests[d]).value.Send?
  {
    var action, dest := NextAction(sys.dests[d]).value, Taken(sys.dests[d]);
    var message := Outbound(d, messageId, action.message);
    Put(sys, d, dest.(log := dest.log + [message],
                      fanOut := Some(FanOut(message, dest.table, {}))))
  }

  function DeliverOne(sys: System, d: DestinationId, id: SubscriptionId): System
    requires d in sys.dests && sys.dests[d].fanOut.Some? && id in sys.dests[d].fanOut.value.remaining
  {
    var dest := sys.dests[d];
    var fanOut, subscription := dest.fanOut.value, dest.fanOut.value.remaining[id];
    var rest := fanOut.(remaining := fanOut.remaining - {id});
    if subscription.subscriberSubId.None? then
      Put(sys, d, CrashDest(dest))
    else if Live(sys, subscription.subscriber) then
      Notify(Put(sys, d, dest.(fanOut := Some(rest))), subscription.subscriber,
             ServerMessage(subscription.subscriberSubId.value, fanOut.message))
    else
      Put(sys, d, dest.(fanOut := Some(rest.(dead := rest.dead + {id})), bounced := dest.bounced + {id}))
  }

  function EndSend(sys: System, d: DestinationId): System
    requires d in sys.dests && sys.dests[d].fanOut.Some?
  {
    var dest := sys.dests[d];
    Put(sys, d, dest.(table := dest.table - dest.fanOut.value.dead,
                      fanOut := None))
  }

  predicate Enabled(sys: System, step: Step) {
    match step
    case Accept(sid, _) => sid !in sys.sessions
    case FromClient(sid, event) => Live(sys, sid) && External(event)
    case FromServer(sid) => Live(sys, sid) && sys.sessions[sid].inbox.received < |sys.sessions[sid].inbox.sent|
    case Drop(sid) => Live(sys, sid)
    case MissHeartbeat(sid) => Live(sys, sid)
    case CreateDestination(d) => d !in sys.dests && exists n <- sys.tasks :: sys.tasks[n].destination == d
    case RunTask(n) => n in sys.tasks && sys.tasks[n].destination in sys.dests
    case CloseDestination(d) => d in sys.dests
    case TakeSubscribe(d, id) => Takes(sys, d) && NextAction(sys.dests[d]).value.Subscribe? && id !in sys.dests[d].issued
    case TakeUnsubscribe(d) => Takes(sys, d) && NextAction(sys.dests[d]).value.Unsubscribe?
    case TakeSend(d, messageId) =>
      && Takes(sys, d) && NextAction(sys.dests[d]).value.Send?
      && forall m <- sys.dests[d].log :: m.messageId != messageId
    case TakeClose(d) => Takes(sys, d) && NextAction(sys.dests[d]).value.Close?
    case Deliver(d, id) => d in sys.dests && sys.dests[d].fanOut.Some? && id in sys.dests[d].fanOut.value.remaining
    case FinishSend(d) => d in sys.dests && sys.dests[d].fanOut.Some? && sys.dests[d].fanOut.value.remaining == map[]
  }

  function Apply(sys: System, step: Step): System
    requires Enabled(sys, step)
  {
    match step
    case Accept(sid, heartbeat) =>
      var session := Session(Empty(), map[], [], false);
      var greeted := Settle(session, React(session.active, ClientEvent.Connected(Swapped(heartbeat))));
      sys.(sessions := sys.sessions[sid := greeted])
    case FromClient(sid, event) => Handle(sys, sid, sys.sessions[sid], event)
    case FromServer(sid) =>
      var session := sys.sessions[sid];
      Handle(sys, sid, session.(inbox := session.inbox.Pop()), session.inbox.sent[session.inbox.received])
    case Drop(sid) =>
      sys.(sessions := sys.sessions[sid := sys.sessions[sid].(inbox := sys.sessions[sid].inbox.Shut())])
    case MissHeartbeat(sid) => Notify(sys, sid, ClientEvent.Error("Missed heartbeat"))
    case CreateDestination(d) => Put(sys, d, NewDest())
    case RunTask(n) => RunSubscribeTask(sys, n)
    case CloseDestination(d) => Put(sys, d, sys.dests[d].(queue := sys.dests[d].queue.Push(DestinationAction.Close)))
    case TakeSubscribe(d, id) => AddSubscription(sys, d, id)
    case TakeUnsubscribe(d) => RemoveSubscription(sys, d)
    case TakeSend(d, messageId) => StartSend(sys, d, messageId)
    case TakeClose(d) => Put(sys, d, sys.dests[d].(queue := sys.dests[d].queue.Pop().Shut()))
    case Deliver(d, id) => DeliverOne(sys, d, id)
    case FinishSend(d) => EndSend(sys, d)
  }

  // ---------- runs ----------

  /** Every step of the run is enabled when its turn comes. */
  ghost predicate IsRun(sys: System, steps: seq<Step>)
    decreases |steps|
  {
    steps == [] || (Enabled(sys, steps[0]) && IsRun(Apply(sys, steps[0]), steps[1..]))
  }

  ghost function After(sys: System, steps: seq<Step>): System
    requires IsRun(sys, steps)
    decreases |steps|
  {
    if steps == [] then sys else After(Apply(sys, steps[0]), steps[1..])
  }

  ghost predicate Reachable(sys: System) {
    exists steps :: IsRun(INITIAL, steps) && After(INITIAL, steps) == sys
  }
}
